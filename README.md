# Book website: preview navigators and purchase flow

This project models the three small state machines of the book website's `script.js`. It proves properties of each.

- **Image preview** (`initializeImagePreview`): a modal that shows one two-page spread of a four-page preview at a time.
  - The closure variables `currentSpread` and `isFlipping` guard the previous and next handlers.
  - An 800 ms timer re-renders the display and clears the flip flag.
  - `updateBookDisplay` writes the image sources, the page label, the disabled flags of the buttons and the visibility of the end-of-preview message.
  - A `keydown` listener forwards the arrow keys to the buttons and closes on Escape.
- **PDF page navigator**: the module-level variables `pdfDoc` (here only whether a document is loaded), `currentPage`, `totalPages` and `pageFlipping`.
  - `renderPage` has a guard, and `animatePageFlip` runs a timeline with a midpoint render and a completion callback.
  - The click, key, mouse and swipe listeners request a flip within the page bounds.
  - `updatePageButtons` sets the disabled flags of the buttons.
- **Purchase form**: the submit listener of `initializeForm`, which trims and validates the fields, then disables the submit button.
  - `createOrderViaBackend` sends the order. It then takes the free branch, opens the Razorpay checkout, or fails.
  - The checkout's payment handler and its `ondismiss` callback.
  - `verifyPaymentViaBackend`, `sendBookViaBackend` and `showSuccessMessage`.

Each component is written twice.

- A value type (`Preview`, `Viewer`, `Form`) with one transition function per handler.
  - Each function keeps the component's invariant `Inv`.
  - A `Run` function replays any sequence of events, and the lemmas about whole traces are stated over it.
- A class whose fields are the script's variables and DOM outputs, and whose methods are the script's functions.
  - Each event handler ensures `Valid()`, and that its new `State()` is the transition function applied to the old one. The intermediate steps it calls (such as `UpdateBookDisplay` or `DisableSubmit`) state their whole new state.

The module `JsString` models the two ECMAScript string operations the form uses: `String.prototype.trim` and `indexOf`. `Wrappers` holds `Option` and `Result`.

Where the code does not do what its comments and controls suggest, the model follows the code:

- After a payment, the success panel is shown even when verification fails; only the email is withheld.
- The end-of-preview message is never revealed by the preview's own controls. The next handler would un-hide it each time it ran on the last spread. But `updateBookDisplay` disables the next button there, and the browser delivers no click, and no `click()` from the keyboard listener, to a disabled button (`ImagePreview.EndMessageStaysHidden`).
- Opening the preview always starts again at the first spread.
- A PDF flip never shows its target page (see Findings).

## Model

| member | source | states |
|---|---|---|
| JsString.Trim | script.js:744-746 | `trim` is no longer than its input, and its result is empty or neither starts nor ends with white space |
| JsString.TrimStart | script.js:744-746 | the result is a suffix of the input; every character it drops is ECMAScript white space or a line terminator; the result does not start with one |
| JsString.TrimEnd | script.js:744-746 | the result is a prefix of the input; every character it drops is white space; the result does not end with white space |
| JsString.TrimIsSlice | script.js:744-746 | `trim` returns the slice of the input that starts where the leading white space ends |
| JsString.TrimCutsOnlyWhiteSpace | script.js:744-746 | everything `trim` removes, before and after the slice it keeps, is white space |
| JsString.TrimIdempotent | script.js:744-746 | trimming twice gives the same string as trimming once |
| JsString.TrimEmptyIffBlank | script.js:750 | a trimmed field is empty exactly when the raw field is all white space |
| JsString.IndexOf | script.js:755 | the result is -1 exactly when the character is absent; otherwise it is the position of its first occurrence |
| ImagePreview.BookDisplay | script.js:646-656 | for each spread the label is the odd page number `2*spread+1` and determines the spread; the left image is that page and the right image the next; previous is disabled exactly on page 1 and next exactly on the last spread |
| ImagePreview.Render | script.js:646-661 | rendering shows the current spread, hides the end message unless on the last spread, changes nothing else, and keeps the invariant when no flip is in progress |
| ImagePreview.Initial | script.js:573-574 | the preview starts on spread 0, not flipping, closed, nothing rendered, and satisfies the invariant |
| ImagePreview.OnOpen | script.js:595-602 | opening resets to spread 0, clears the flip flag, shows the modal, renders spread 0 and hides the end message |
| ImagePreview.OnClose | script.js:604-614 | closing hides the modal and changes nothing else, so the spread and the flip flag are kept |
| ImagePreview.OnPrev | script.js:617-627 | previous keeps the invariant: the spread stays in range, and a set flip flag has a pending timer |
| ImagePreview.OnNext | script.js:630-644 | next keeps the invariant: the spread stays in range, a set flip flag has a pending timer, and the end message is hidden whenever a settled display shows a spread other than the last |
| ImagePreview.OnFlipTimer | script.js:622-625 | the timer renders the current spread, clears the flip flag, consumes one pending timer, keeps the spread and the modal, and hides the end message unless on the last spread |
| ImagePreview.StepsMoveByOne | script.js:617-638 | next moves one spread forward exactly when not flipping and not on the last spread; previous moves one back exactly when not flipping and not on the first; a move sets the flip flag, starts one timer and changes nothing else, so the modal, end message and display wait for the timer |
| ImagePreview.NextAtEndShowsMessage | script.js:639-643 | next on the last spread while not flipping only un-hides the end message |
| ImagePreview.FlippingIgnoresNavigation | script.js:618-639 | while a flip is in progress, previous and next change nothing |
| ImagePreview.ButtonsMatchHandlers | script.js:655-656 | on a settled display, previous is disabled iff its handler does nothing, and next is disabled iff its handler would not move the spread |
| ImagePreview.OnPrevClick | script.js:617-627 | a click on previous keeps the invariant; it does nothing during a flip; on a settled display it runs the handler exactly when the first spread is not shown |
| ImagePreview.OnNextClick | script.js:630-644 | a click on next keeps the invariant; it does nothing during a flip; on a settled display it runs the handler exactly when the last spread is not shown, and does nothing on the last spread |
| ImagePreview.OnKey | script.js:683-689 | the keyboard listener keeps the invariant; with the modal hidden, or for any other key, nothing changes; Escape closes; the left and right arrows click previous and next |
| ImagePreview.Step | script.js:595-689 | every click, key press and timer firing keeps the invariant |
| ImagePreview.Run | script.js:565-692 | after any sequence of events the spread index is within the `pages` array, and a set flip flag always has a timer that will clear it |
| ImagePreview.NavigationDroppedWhileFlipping | script.js:618-639 | any number of previous, next and arrow-key clicks during a flip are dropped, not queued: the state is unchanged |
| ImagePreview.EndMessageStaysHidden | script.js:639-661 | after any sequence of clicks, key presses and timer firings, a hidden end message stays hidden, because the next button is disabled on the settled last spread |
| ImagePreview.NextThenTimerShowsFollowingSpread | script.js:630-638 | a click on next from a settled non-last spread, followed by its timer, shows the following spread with label `2*(spread+1)+1` and clears the flag |
| ImagePreview.BookPreview.constructor | script.js:573-574 | the object starts in the initial state |
| ImagePreview.BookPreview.UpdateBookDisplay | script.js:646-666 | writes the display of the current spread and hides the end message unless on the last spread |
| ImagePreview.BookPreview.Open | script.js:595-602 | the open handler, equal to `OnOpen` on the state; keeps `Valid` |
| ImagePreview.BookPreview.Close | script.js:610-614 | `closeBook`, equal to `OnClose`; keeps `Valid` |
| ImagePreview.BookPreview.Prev | script.js:617-627 | the previous handler, equal to `OnPrev`; keeps `Valid` |
| ImagePreview.BookPreview.Next | script.js:630-644 | the next handler, equal to `OnNext`; keeps `Valid` |
| ImagePreview.BookPreview.FinishFlip | script.js:622-625 | the timer callback, equal to `OnFlipTimer`; keeps `Valid` |
| ImagePreview.BookPreview.ClickPrev | script.js:685 | a click on the previous button, equal to `OnPrevClick`; keeps `Valid` |
| ImagePreview.BookPreview.ClickNext | script.js:686 | a click on the next button, equal to `OnNextClick`; keeps `Valid` |
| ImagePreview.BookPreview.KeyDown | script.js:683-689 | the keyboard listener, equal to `OnKey`; keeps `Valid` |
| PdfNavigator.Requested | script.js:467-527 | a trigger requests going back only when `currentPage > 1` and forward only when `currentPage < totalPages`; each button requests exactly when its bound allows; ArrowLeft and a press on the left half of the flipbook request only going back, exactly when allowed; ArrowRight and a press on the right half request only going forward, exactly when allowed; a leftward swipe of more than 50 pixels requests forward and a rightward one back, each exactly when allowed; a swipe of 50 pixels or less, or any other key, requests nothing |
| PdfNavigator.PageButtons | script.js:709-715 | on a page of the document, previous is disabled exactly on the first page and next exactly on the last; both are enabled exactly when the page has neighbours on both sides |
| PdfNavigator.ButtonsMatchRequests | script.js:709-715 | `updatePageButtons` disables previous iff its click requests nothing, and next iff its click requests nothing |
| PdfNavigator.Initial | script.js:5-8 | no document, page 1, not flipping, and the invariant holds |
| PdfNavigator.AfterRenderPage | script.js:361-413 | without a document, during a flip, or when the render fails, nothing changes; otherwise the rendered page becomes current, the label shows it, the buttons are set by `PageButtons`, and nothing else changes |
| PdfNavigator.AfterLoadPdf | script.js:336-358 | a failed load only sets the page counter to 1, as `showPDFPlaceholder` does at script.js:446; a successful one marks the document loaded with its page count; if page 1 renders it becomes current with its label and buttons, otherwise page, label and buttons are kept; the invariant is kept |
| PdfNavigator.AfterAnimatePageFlip | script.js:529-537 | a no-op while flipping or without a document; otherwise sets the flag and aims at the neighbouring page in the given direction, changing nothing else |
| PdfNavigator.AfterFlipMidpoint | script.js:547-550 | the midpoint render, as written: only the timeline moves on; page, label, buttons, page count and loaded flag are unchanged |
| PdfNavigator.AfterFlipComplete | script.js:555-557 | completion clears the flip flag and ends the timeline, and changes nothing else |
| PdfNavigator.AfterTrigger | script.js:467-527 | every listener keeps the invariant that at most one flip runs, exactly while the flag is set |
| PdfNavigator.Step | script.js:529-558 | every input and timeline step keeps the invariant |
| PdfNavigator.Run | script.js:529-558 | any sequence of inputs and timeline steps keeps the invariant |
| PdfNavigator.FlipNeverTurnsPage | script.js:529-558 | as written, no sequence of inputs and timeline steps changes the current page, the page label or the buttons |
| PdfNavigator.NextClickStaysOnFirstPage | script.js:476-480 | a three-page document on page 1: next, a successful midpoint render and completion leave page 1 current |
| PdfNavigator.AfterFlipMidpointFixed | script.js:547-550 | corrected midpoint: a successful render makes the target the current page and updates the label and buttons; a failed one changes nothing but the phase |
| PdfNavigator.StepFixed | script.js:529-558 | the corrected step keeps the invariant |
| PdfNavigator.RunFixed | script.js:529-558 | the corrected trace keeps the invariant |
| PdfNavigator.FixedFlipTurnsPage | script.js:476-480 | with the correction, next, a successful render and completion show the following page with its label and buttons |
| PdfNavigator.FixedKeepsPageInRange | script.js:467-558 | with the correction, the current page and every flip target stay within 1..`totalPages` (page 1 of an empty or missing document counts as in range) |
| PdfNavigator.StartInRange | script.js:5-8 | the navigator's initial state, and its state after `loadPDF` on either outcome, meet that range condition |
| PdfNavigator.PdfViewer.constructor | script.js:5-8 | the viewer starts in the initial state |
| PdfNavigator.PdfViewer.UpdatePageButtons | script.js:709-715 | sets the buttons from the current page and page count, and changes nothing else |
| PdfNavigator.PdfViewer.RenderPage | script.js:361-413 | `renderPage`, equal to `AfterRenderPage`; keeps `Valid` |
| PdfNavigator.PdfViewer.LoadPdf | script.js:336-358 | `loadPDF` on both outcomes, equal to `AfterLoadPdf` |
| PdfNavigator.PdfViewer.AnimatePageFlip | script.js:529-540 | `animatePageFlip`, equal to `AfterAnimatePageFlip` |
| PdfNavigator.PdfViewer.FlipMidpoint | script.js:547-550 | the timeline's call step, equal to `AfterFlipMidpoint` |
| PdfNavigator.PdfViewer.FlipComplete | script.js:555-557 | the timeline's `onComplete`, equal to `AfterFlipComplete` |
| PdfNavigator.PdfViewer.OnTrigger | script.js:467-527 | the listeners, equal to `AfterTrigger` |
| Purchase.Validate | script.js:744-758 | a submission is accepted iff all three trimmed fields are non-empty and the trimmed email contains `@`; it is rejected as missing iff a trimmed field is empty; accepted values are the trimmed fields |
| Purchase.BlankFieldRejected | script.js:750-753 | a field that holds only white space is rejected as missing |
| Purchase.ValidateAcceptsItsOwnFields | script.js:744-758 | re-validating accepted fields gives the same fields |
| Purchase.TrimKeepsUnpadded | script.js:744-746 | a non-empty string with no white space at either end is its own trim |
| Purchase.ValidateUnpadded | script.js:744-758 | unpadded values with an `@` in the email are accepted as they are |
| Purchase.ToPaise | script.js:816 | the checkout amount is a whole number of rupees in paise: divisible by 100, with quotient the amount |
| Purchase.OrderBranch | script.js:795-861 | free iff the backend answers success and marks the order free; checkout iff success, not free and Razorpay loaded, with amount in paise, the gateway key and order id, and the fields prefilled; every other case fails with the backend's or the script's message |
| Purchase.Initial | script.js:735-740 | the form is shown with the button enabled and nothing sent; the invariant holds |
| Purchase.AfterShowSuccess | script.js:936-951 | the form is hidden and the success panel shows the email and a WhatsApp line ending with the number; nothing else changes, the disabled button included |
| Purchase.AfterOrderError | script.js:863-868 | the error is alerted, the button is re-enabled with its label restored, nothing else changes, and from order creation the result satisfies the invariant |
| Purchase.AfterSendBook | script.js:905-934 | one EmailJS request with the configured service and template; a thrown error only adds the delayed-delivery alert; nothing else changes |
| Purchase.AfterCreateOrder | script.js:776-869 | exactly one order request with the given fields; no verification; the invariant is kept |
| Purchase.AfterSubmit | script.js:740-769 | the submit listener keeps the invariant |
| Purchase.AfterVerifyPayment | script.js:871-903 | exactly one verification request with the gateway's ids and the order id; one email exactly when the backend answers success |
| Purchase.AfterPayment | script.js:830-845 | the payment handler keeps the invariant |
| Purchase.AfterDismiss | script.js:847-851 | `ondismiss` keeps the invariant |
| Purchase.RejectionSendsNothing | script.js:750-758 | a rejected submission only adds its alert: the button stays enabled and nothing is sent |
| Purchase.AcceptedSubmission | script.js:762-869 | an accepted submission sends one order. A free order sends the book with amount 0 and shows success without a checkout. A paid order opens a checkout with the backend's key and order id, the prefill and `amount*100` paise. A failed order re-enables the button and shows the error. Neither a paid nor a failed order sends the book or shows success, and no verification is sent |
| Purchase.PaymentAlwaysShowsSuccess | script.js:834-844 | after a payment the success panel is shown whatever the verification gave; exactly one verification request goes out with the gateway's three ids and the captured order id, and no order request; the book is sent iff verification succeeded, otherwise a verification alert is raised |
| Purchase.DismissReenablesSubmit | script.js:847-851 | dismissing the checkout re-enables the button, restores its label and sends nothing |
| Purchase.Step | script.js:740-869 | every event keeps the invariant |
| Purchase.Run | script.js:740-869 | any sequence of events keeps the invariant: there are never more deliveries or verifications than order requests, and the button is left disabled only while a checkout is open or after success |
| Purchase.SuccessIsFinal | script.js:936-951 | once the success panel is shown, no event changes anything or sends anything |
| Purchase.FreeOrderExample | script.js:804-808 | a concrete free order sends one email for amount 0 to the buyer and shows the success panel |
| Purchase.PurchaseForm.constructor | script.js:735-740 | the form starts in the initial state |
| Purchase.PurchaseForm.Submit | script.js:740-769 | the submit listener, equal to `AfterSubmit`; keeps `Valid` |
| Purchase.PurchaseForm.DisableSubmit | script.js:763-765 | disables the button and sets the processing label, leaving the form ready for order creation |
| Purchase.PurchaseForm.CreateOrderViaBackend | script.js:776-869 | `createOrderViaBackend`, equal to `AfterCreateOrder` |
| Purchase.PurchaseForm.ReportError | script.js:863-868 | the `catch` block: alert, re-enable the button, restore the label |
| Purchase.PurchaseForm.SendBookViaBackend | script.js:905-934 | `sendBookViaBackend`, equal to `AfterSendBook`; returns true iff EmailJS answered status 200 |
| Purchase.PurchaseForm.VerifyPaymentViaBackend | script.js:871-903 | `verifyPaymentViaBackend`, equal to `AfterVerifyPayment` |
| Purchase.PurchaseForm.ShowSuccessMessage | script.js:936-951 | hides the form and fills the success panel with the email and the phone-emoji WhatsApp line |
| Purchase.PurchaseForm.OnPayment | script.js:830-845 | the payment handler, equal to `AfterPayment`; keeps `Valid` |
| Purchase.PurchaseForm.OnDismiss | script.js:847-851 | `ondismiss`, equal to `AfterDismiss`; keeps `Valid` |

## Left out

- Animation and presentation are not modelled. This covers the GSAP timeline's rotations and durations, `flipForward`/`flipBackward`, the page CSS classes, `playPageFlipSound`, `createCelebrationEffect` and body scrolling. None of them affects the modelled state.
- PDF.js is not modelled: fetching the document, `getPage`, the scale computation (floating point over a foreign library) and drawing. The outcome of a render or a load is an input: `rendered`, and `LoadOutcome`.
- The placeholder drawing after a failed load is not modelled. A failed load leaves the navigator unloaded and only writes 1 into the page counter (`pageLabel`).
- The `pdfjsLib`-undefined path is not modelled separately; it is one more failed load.
- The `total-pages` label is not modelled.
- Asynchrony is not modelled. Every `await` is part of one atomic step, so no other event can interleave inside `renderPage`, `createOrderViaBackend` or `verifyPaymentViaBackend`.
- Both navigators attach listeners to the same `prev-page`/`next-page` buttons and to `document` key presses. Each navigator is modelled on its own. So the preview's buttons are enabled or disabled only by `updateBookDisplay`, and its handlers run only through clicks on those buttons; `updatePageButtons` re-enabling the shared next button is not modelled.
- Strings are modelled as sequences of Unicode scalar values, not UTF-16 code units. `trim` and `indexOf('@')` agree on both views of well-formed text, because every white-space character and `@` lies in the Basic Multilingual Plane and is never part of a surrogate pair.
- The mouse and touch inputs are real-valued parameters. `touchStartX` is taken from the swipe's own `touchstart`, not from an earlier swipe or its initial value of 0.
- The initial DOM state of the markup (button flags, page label, end-message class) is not modelled. It is `None` until the script first renders; `ImagePreview.Initial` takes the end message's visibility as a parameter.
- The missing-modal early return of `initializeImagePreview` is not modelled, nor the optional chaining on the buttons; all elements are taken to be present.
- `parseInt(...) || 0` is not modelled. The amount is taken as an already-parsed natural number.
- `alert` and `console` text are not modelled. Alerts are recorded as an `Alert` value with the message they carry.
- The order, verification and EmailJS endpoints, and the Razorpay widget itself, are not modelled. Their answers are inputs (`CreateOutcome`, `VerifyOutcome`, `EmailOutcome`, `GatewayResponse`), and the requests sent are recorded in the state.
- The default parameter values of `verifyPaymentViaBackend` and `sendBookViaBackend` are not modelled, because every call site passes all arguments.
- Purchase.PurchaseForm.SendBookViaBackend: its result is computed but, as in the script, no caller uses it.

## Findings

| source | as written | input that shows it | evidently intended | confidence | as-written member | corrected member |
|---|---|---|---|---|---|---|
| script.js:529-558 | `animatePageFlip` sets `pageFlipping` before its timeline calls `renderPage(targetPage)`, and `renderPage` returns at once while `pageFlipping` is set, so the flip never changes the page | a three-page document on page 1; click next; the midpoint render would succeed; the timeline completes; page 1 is still current | the flip's own midpoint render shows the target page, updating the page label and the buttons | high (proved of the model, not executed) | PdfNavigator.FlipNeverTurnsPage | PdfNavigator.AfterFlipMidpointFixed |
