/**
 * The PDF page navigator of script.js: the module-level variables `pdfDoc` (here only whether a
 * document is loaded), `currentPage`, `totalPages` and `pageFlipping`; `renderPage` with its
 * guard; `animatePageFlip` and the three steps of its timeline; the click, key, mouse and swipe
 * listeners that request a flip; and `updatePageButtons`.
 *
 * As written, `animatePageFlip` sets `pageFlipping` before its timeline calls
 * `renderPage(targetPage)`, and `renderPage` returns at once while `pageFlipping` is set, so a
 * flip never changes the page (`FlipNeverTurnsPage`). `AfterFlipMidpointFixed` renders the target
 * page through the flag and is proved to turn the page (`FixedFlipTurnsPage`,
 * `FixedKeepsPageInRange`).
 */
module PdfNavigator {
  import opened Wrappers

  /** The direction passed to `animatePageFlip`. */
  datatype Direction = Prev | Next

  /** The disabled state of the previous and next buttons. */
  datatype Buttons = Buttons(prevDisabled: bool, nextDisabled: bool)

  /** `updatePageButtons`: on a page of the document, previous is disabled exactly on the first
    * page and next exactly on the last; both are enabled exactly when the page has a neighbour on
    * either side. */
  function PageButtons(currentPage: int, totalPages: int): (b: Buttons)
    ensures 1 <= currentPage <= totalPages ==>
      (b.prevDisabled <==> currentPage == 1) && (b.nextDisabled <==> currentPage == totalPages)
    ensures !b.prevDisabled && !b.nextDisabled <==> 1 < currentPage < totalPages
  {
    Buttons(currentPage <= 1, currentPage >= totalPages)
  }

  /** The keys the `keydown` listener of the PDF controls distinguishes. */
  datatype Key = ArrowLeft | ArrowRight | OtherKey

  /** An input that may request a flip. Mouse and touch coordinates are CSS pixels. */
  datatype Trigger =
    | PrevButton
    | NextButton
    | KeyDown(key: Key)
    | MouseDown(x: real, width: real)   // x relative to the flipbook's left edge
    | Swipe(startX: real, endX: real)   // `touchstart` and `touchend` positions

  function Abs(x: real): real
  {
    if x < 0.0 then -x else x
  }

  /** The minimum horizontal travel of a swipe, in CSS pixels. */
  const MinSwipe: real := 50.0

  /** The flip a trigger requests on page `currentPage` of `totalPages`, if any. A request
    * backwards needs a page before the current one and a request forwards a page after it; a
    * swipe needs to travel more than `MinSwipe`, and the buttons request exactly when their
    * bound allows. */
  function Requested(t: Trigger, currentPage: int, totalPages: int): (r: Option<Direction>)
    ensures r == Some(Prev) ==> currentPage > 1
    ensures r == Some(Next) ==> currentPage < totalPages
    ensures t == PrevButton ==> (r == Some(Prev) <==> currentPage > 1) && (r.Some? ==> r == Some(Prev))
    ensures t == NextButton ==> (r == Some(Next) <==> currentPage < totalPages) && (r.Some? ==> r == Some(Next))
    ensures t == KeyDown(ArrowLeft) ==> (r == Some(Prev) <==> currentPage > 1) && (r.Some? ==> r == Some(Prev))
    ensures t == KeyDown(ArrowRight) ==> (r == Some(Next) <==> currentPage < totalPages) && (r.Some? ==> r == Some(Next))
    ensures t == KeyDown(OtherKey) ==> r == None
    ensures t.MouseDown? && t.x > t.width / 2.0 ==> (r == Some(Next) <==> currentPage < totalPages) && r != Some(Prev)
    ensures t.MouseDown? && t.x <= t.width / 2.0 ==> (r == Some(Prev) <==> currentPage > 1) && r != Some(Next)
    ensures t.Swipe? && t.startX - t.endX > MinSwipe ==> (r == Some(Next) <==> currentPage < totalPages) && r != Some(Prev)
    ensures t.Swipe? && t.startX - t.endX < -MinSwipe ==> (r == Some(Prev) <==> currentPage > 1) && r != Some(Next)
    ensures t.Swipe? && Abs(t.startX - t.endX) <= MinSwipe ==> r == None
  {
    match t
    case PrevButton => if currentPage > 1 then Some(Prev) else None
    case NextButton => if currentPage < totalPages then Some(Next) else None
    case KeyDown(k) =>
      if k == ArrowLeft && currentPage > 1 then Some(Prev)
      else if k == ArrowRight && currentPage < totalPages then Some(Next)
      else None
    case MouseDown(x, width) =>
      if x > width / 2.0 && currentPage < totalPages then Some(Next)
      else if x <= width / 2.0 && currentPage > 1 then Some(Prev)
      else None
    case Swipe(startX, endX) =>
      var diff := startX - endX;
      if Abs(diff) > MinSwipe then
        if diff > 0.0 && currentPage < totalPages then Some(Next)
        else if diff < 0.0 && currentPage > 1 then Some(Prev)
        else None
      else None
  }

  /** The buttons that `updatePageButtons` disables are exactly those whose click requests
    * nothing: previous is disabled iff its click requests no flip, and likewise next. */
  lemma ButtonsMatchRequests(currentPage: int, totalPages: int)
    ensures PageButtons(currentPage, totalPages).prevDisabled <==> Requested(PrevButton, currentPage, totalPages) == None
    ensures PageButtons(currentPage, totalPages).nextDisabled <==> Requested(NextButton, currentPage, totalPages) == None
  {
  }

  /** Where the flip timeline is: not running, before its midpoint call, or after it. */
  datatype FlipPhase = Idle | Turning(target: int) | Settling

  /** The navigator's state: whether `pdfDoc` is set, `totalPages`, `currentPage`,
    * `pageFlipping`, the running timeline, and what `renderPage` last wrote into the page
    * counter and the buttons (None while they still show their markup). */
  datatype Viewer = Viewer(
    loaded: bool,
    totalPages: int,
    currentPage: int,
    pageFlipping: bool,
    phase: FlipPhase,
    pageLabel: Option<int>,
    buttons: Option<Buttons>)

  /** At most one flip timeline runs at a time, exactly while `pageFlipping` is set, and only
    * once a document is loaded. */
  predicate Inv(v: Viewer)
  {
    && (v.pageFlipping <==> !v.phase.Idle?)
    && (v.pageFlipping ==> v.loaded)
  }

  /** The initial values of the module-level variables. */
  function Initial(): (v: Viewer)
    ensures Inv(v) && !v.loaded && v.currentPage == 1
  {
    Viewer(false, 0, 1, false, Idle, None, None)
  }

  /** Setting the page after a successful render: the counter and the buttons follow. */
  function ShowPage(v: Viewer, pageNum: int): (r: Viewer)
  {
    v.(currentPage := pageNum, pageLabel := Some(pageNum), buttons := Some(PageButtons(pageNum, v.totalPages)))
  }

  /** `renderPage(pageNum)`. Nothing happens without a document or during a flip; otherwise
    * `rendered` says whether fetching, drawing and finding the canvas succeeded (any failure is
    * caught and leaves the state as it was), and on success the page becomes current. */
  function AfterRenderPage(v: Viewer, pageNum: int, rendered: bool): (r: Viewer)
    requires Inv(v)
    ensures Inv(r)
    ensures !v.loaded || v.pageFlipping || !rendered ==> r == v
    ensures v.loaded && !v.pageFlipping && rendered ==>
      && r.currentPage == pageNum && r.pageLabel == Some(pageNum)
      && r.buttons == Some(PageButtons(pageNum, v.totalPages))
      && r.(currentPage := v.currentPage, pageLabel := v.pageLabel, buttons := v.buttons) == v
  {
    if !v.loaded || v.pageFlipping then v
    else if rendered then ShowPage(v, pageNum)
    else v
  }

  /** The result of `loadPDF`: a document of `numPages` pages whose first page did or did not
    * render, or a failure, after which `showPDFPlaceholder` draws the placeholder and writes 1
    * into the page counter. */
  datatype LoadOutcome = Loaded(numPages: nat, firstRendered: bool) | Unavailable

  /** `loadPDF`: a failed load only sets the page counter to 1; a successful one records the
    * document and its page count, then renders page 1. */
  function AfterLoadPdf(v: Viewer, outcome: LoadOutcome): (r: Viewer)
    requires Inv(v) && !v.pageFlipping
    ensures Inv(r)
    ensures outcome.Unavailable? ==> r == v.(pageLabel := Some(1))
    ensures outcome.Loaded? ==> r.loaded && r.totalPages == outcome.numPages && !r.pageFlipping
    ensures outcome.Loaded? && outcome.firstRendered ==>
      r.currentPage == 1 && r.pageLabel == Some(1) && r.buttons == Some(PageButtons(1, outcome.numPages))
    ensures outcome.Loaded? && !outcome.firstRendered ==>
      r.currentPage == v.currentPage && r.pageLabel == v.pageLabel && r.buttons == v.buttons
  {
    match outcome
    case Loaded(n, firstRendered) => AfterRenderPage(v.(loaded := true, totalPages := n), 1, firstRendered)
    case Unavailable => v.(pageLabel := Some(1))
  }

  /** `animatePageFlip(direction)`: ignored while a flip runs or without a document; otherwise
    * set `pageFlipping` and start the timeline towards the neighbouring page. */
  function AfterAnimatePageFlip(v: Viewer, direction: Direction): (r: Viewer)
    requires Inv(v)
    ensures Inv(r)
    ensures v.pageFlipping || !v.loaded ==> r == v
    ensures !v.pageFlipping && v.loaded ==>
      r == v.(pageFlipping := true, phase := Turning(if direction == Next then v.currentPage + 1 else v.currentPage - 1))
  {
    if v.pageFlipping || !v.loaded then v
    else
      var target := if direction == Next then v.currentPage + 1 else v.currentPage - 1;
      v.(pageFlipping := true, phase := Turning(target))
  }

  /** The timeline's midpoint call, as written: `renderPage(targetPage)` while `pageFlipping`
    * is still set, so only the timeline moves on; nothing of the navigator changes. */
  function AfterFlipMidpoint(v: Viewer, rendered: bool): (r: Viewer)
    requires Inv(v) && v.phase.Turning?
    ensures Inv(r) && r.phase == Settling
    ensures r == v.(phase := Settling)
  {
    AfterRenderPage(v, v.phase.target, rendered).(phase := Settling)
  }

  /** The timeline's `onComplete`: clear `pageFlipping` and end the timeline; nothing else changes. */
  function AfterFlipComplete(v: Viewer): (r: Viewer)
    requires Inv(v) && v.phase.Settling?
    ensures Inv(r) && !r.pageFlipping
    ensures r == v.(pageFlipping := false, phase := Idle)
  {
    v.(pageFlipping := false, phase := Idle)
  }

  /** A listener of `initializePDFControls` or `initializePageFlipping`. */
  function AfterTrigger(v: Viewer, t: Trigger): (r: Viewer)
    requires Inv(v)
    ensures Inv(r)
  {
    match Requested(t, v.currentPage, v.totalPages)
    case None => v
    case Some(d) => AfterAnimatePageFlip(v, d)
  }

  /** The events after loading: an input, or the next step of the running timeline (a timeline
    * step delivered in another phase is no event and changes nothing). */
  datatype Event = Input(trigger: Trigger) | Midpoint(rendered: bool) | Complete

  function Step(v: Viewer, e: Event): (r: Viewer)
    requires Inv(v)
    ensures Inv(r)
  {
    match e
    case Input(t) => AfterTrigger(v, t)
    case Midpoint(rendered) => if v.phase.Turning? then AfterFlipMidpoint(v, rendered) else v
    case Complete => if v.phase.Settling? then AfterFlipComplete(v) else v
  }

  function Run(v: Viewer, events: seq<Event>): (r: Viewer)
    requires Inv(v)
    ensures Inv(r)
    decreases |events|
  {
    if events == [] then v else Run(Step(v, events[0]), events[1..])
  }

  /** As written, no sequence of inputs and timeline steps ever changes the current page, the page
    * counter or the buttons: every `renderPage` call a flip makes finds `pageFlipping` set. */
  lemma {:induction false} FlipNeverTurnsPage(v: Viewer, events: seq<Event>)
    requires Inv(v)
    ensures var r := Run(v, events);
      r.currentPage == v.currentPage && r.pageLabel == v.pageLabel && r.buttons == v.buttons
    decreases |events|
  {
    if events != [] {
      var w := Step(v, events[0]);
      assert w.currentPage == v.currentPage && w.pageLabel == v.pageLabel && w.buttons == v.buttons;
      FlipNeverTurnsPage(w, events[1..]);
    }
  }

  /** A concrete instance: a three-page document on page 1, the next button, a successful
    * midpoint render and the completion leave page 1 current. */
  lemma NextClickStaysOnFirstPage()
    ensures var v := AfterLoadPdf(Initial(), Loaded(3, true));
      && v.currentPage == 1 && v.totalPages == 3
      && Run(v, [Input(NextButton), Midpoint(true), Complete]).currentPage == 1
  {
    var v := AfterLoadPdf(Initial(), Loaded(3, true));
    FlipNeverTurnsPage(v, [Input(NextButton), Midpoint(true), Complete]);
  }

  /** The midpoint call as evidently intended: the flip's own render of the target page is not
    * blocked by the flag the flip itself set. */
  function AfterFlipMidpointFixed(v: Viewer, rendered: bool): (r: Viewer)
    requires Inv(v) && v.phase.Turning?
    ensures Inv(r) && r.phase == Settling && r.pageFlipping
    ensures rendered ==> r.currentPage == v.phase.target && r.pageLabel == Some(v.phase.target)
    ensures rendered ==> r.buttons == Some(PageButtons(v.phase.target, v.totalPages))
    ensures !rendered ==> r == v.(phase := Settling)
  {
    if rendered then ShowPage(v, v.phase.target).(phase := Settling) else v.(phase := Settling)
  }

  function StepFixed(v: Viewer, e: Event): (r: Viewer)
    requires Inv(v)
    ensures Inv(r)
  {
    match e
    case Midpoint(rendered) => if v.phase.Turning? then AfterFlipMidpointFixed(v, rendered) else v
    case _ => Step(v, e)
  }

  function RunFixed(v: Viewer, events: seq<Event>): (r: Viewer)
    requires Inv(v)
    ensures Inv(r)
    decreases |events|
  {
    if events == [] then v else RunFixed(StepFixed(v, events[0]), events[1..])
  }

  /** With the corrected midpoint, a next request from a page before the last, a successful
    * render and the completion show the following page, with the counter and buttons updated. */
  lemma FixedFlipTurnsPage(v: Viewer)
    requires Inv(v) && v.loaded && !v.pageFlipping && v.currentPage < v.totalPages
    ensures var r := RunFixed(v, [Input(NextButton), Midpoint(true), Complete]);
      && r.currentPage == v.currentPage + 1 && !r.pageFlipping
      && r.pageLabel == Some(v.currentPage + 1)
      && r.buttons == Some(PageButtons(v.currentPage + 1, v.totalPages))
  {
    var a := StepFixed(v, Input(NextButton));
    var b := StepFixed(a, Midpoint(true));
    var c := StepFixed(b, Complete);
    assert RunFixed(v, [Input(NextButton), Midpoint(true), Complete]) == RunFixed(a, [Midpoint(true), Complete]);
    assert RunFixed(a, [Midpoint(true), Complete]) == RunFixed(b, [Complete]);
    assert RunFixed(b, [Complete]) == c;
  }

  /** With the corrected midpoint the current page stays a page of the document: between 1 and
    * `totalPages` (or 1 for an empty one), and a running flip always aims at such a page. */
  predicate PageInRange(v: Viewer)
  {
    && 1 <= v.currentPage
    && (v.currentPage <= v.totalPages || v.currentPage == 1)
    && (v.phase.Turning? ==> 1 <= v.phase.target <= v.totalPages)
  }

  /** The navigator starts in range, before and after `loadPDF`, whatever its outcome; an empty
    * or missing document keeps page 1. */
  lemma StartInRange(o: LoadOutcome)
    ensures PageInRange(Initial()) && PageInRange(AfterLoadPdf(Initial(), o))
  {
  }

  lemma {:induction false} FixedKeepsPageInRange(v: Viewer, events: seq<Event>)
    requires Inv(v) && PageInRange(v)
    ensures PageInRange(RunFixed(v, events))
    decreases |events|
  {
    if events != [] {
      var w := StepFixed(v, events[0]);
      assert PageInRange(w);
      FixedKeepsPageInRange(w, events[1..]);
    }
  }

  /** The navigator as the script holds it in module-level variables. */
  class PdfViewer {
    var pdfLoaded: bool
    var totalPages: int
    var currentPage: int
    var pageFlipping: bool
    var timeline: FlipPhase
    var pageLabel: Option<int>
    var buttons: Option<Buttons>

    function State(): Viewer
      reads this
    {
      Viewer(pdfLoaded, totalPages, currentPage, pageFlipping, timeline, pageLabel, buttons)
    }

    predicate Valid()
      reads this
    {
      Inv(State())
    }

    constructor ()
      ensures Valid() && State() == Initial()
    {
      pdfLoaded := false;
      totalPages := 0;
      currentPage := 1;
      pageFlipping := false;
      timeline := Idle;
      pageLabel := None;
      buttons := None;
    }

    /** `updatePageButtons`. */
    method UpdatePageButtons()
      modifies this
      ensures buttons == Some(PageButtons(currentPage, totalPages))
      ensures State() == old(State()).(buttons := buttons)
    {
      buttons := Some(Buttons(currentPage <= 1, currentPage >= totalPages));
    }

    method RenderPage(pageNum: int, rendered: bool)
      requires Valid()
      modifies this
      ensures Valid() && State() == AfterRenderPage(old(State()), pageNum, rendered)
    {
      if !pdfLoaded || pageFlipping {
        return;
      }
      if rendered {
        currentPage := pageNum;
        pageLabel := Some(currentPage);
        UpdatePageButtons();
      }
    }

    method LoadPdf(outcome: LoadOutcome)
      requires Valid() && !pageFlipping
      modifies this
      ensures Valid() && State() == AfterLoadPdf(old(State()), outcome)
    {
      match outcome
      case Loaded(n, firstRendered) =>
        pdfLoaded := true;
        totalPages := n;
        RenderPage(1, firstRendered);
      case Unavailable =>
        pageLabel := Some(1);
    }

    method AnimatePageFlip(direction: Direction)
      requires Valid()
      modifies this
      ensures Valid() && State() == AfterAnimatePageFlip(old(State()), direction)
    {
      if pageFlipping || !pdfLoaded {
        return;
      }
      pageFlipping := true;
      var targetPage := if direction == Next then currentPage + 1 else currentPage - 1;
      timeline := Turning(targetPage);
    }

    /** The timeline's call step: render the target page. */
    method FlipMidpoint(rendered: bool)
      requires Valid() && timeline.Turning?
      modifies this
      ensures Valid() && State() == AfterFlipMidpoint(old(State()), rendered)
    {
      var targetPage := timeline.target;
      RenderPage(targetPage, rendered);
      timeline := Settling;
    }

    /** The timeline's `onComplete`. */
    method FlipComplete()
      requires Valid() && timeline.Settling?
      modifies this
      ensures Valid() && State() == AfterFlipComplete(old(State()))
    {
      pageFlipping := false;
      timeline := Idle;
    }

    /** The click, key, mouse and touch listeners. */
    method OnTrigger(t: Trigger)
      requires Valid()
      modifies this
      ensures Valid() && State() == AfterTrigger(old(State()), t)
    {
      var request := Requested(t, currentPage, totalPages);
      if request.Some? {
        AnimatePageFlip(request.value);
      }
    }
  }
}
