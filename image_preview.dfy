/**
 * The four-page image preview of script.js (`initializeImagePreview`): a modal that shows one
 * two-page spread at a time, with open, close, previous and next handlers, a flip guard
 * (`isFlipping`) and a re-render that a timer runs 800 ms after each flip.
 *
 * The behaviour is given twice: as transition functions on a `Preview` value (the specification,
 * over which traces and lemmas are stated) and as the class `BookPreview`, whose fields are the
 * closure variables and DOM outputs and whose methods are the event handlers.
 */
module ImagePreview {
  import opened Wrappers

  /** One spread: the image on the left page and the image on the right page. */
  datatype Spread = Spread(left: string, right: string)

  /** The fixed `pages` array: pages 1-2, then pages 3-4. */
  const Pages: seq<Spread> := [
    Spread("/public/images/1.png", "/public/images/2.png"),
    Spread("/public/images/3.png", "/public/images/4.png")
  ]

  /** `pages.length - 1`, the index of the last spread. */
  const LastSpread: int := |Pages| - 1

  /** What `updateBookDisplay` writes: both image sources, the page counter and the disabled
    * state of the previous and next buttons. */
  datatype Display = Display(
    leftSrc: string,
    rightSrc: string,
    pageLabel: int,
    prevDisabled: bool,
    nextDisabled: bool)

  /** The path of the image of page `n` (1 to 9) in the preview's image folder. */
  function ImagePath(n: int): string
    requires 1 <= n <= 9
  {
    "/public/images/" + [('0' as int + n) as char] + ".png"
  }

  /** The display `updateBookDisplay` produces for spread `spread`. The label is the odd page
    * number shown on the left, and it determines the spread; the left image is that page and the
    * right image the next; previous is disabled exactly on page 1 and next exactly on the last
    * spread's left page. */
  function BookDisplay(spread: int): (d: Display)
    requires 0 <= spread <= LastSpread
    ensures d.pageLabel % 2 == 1 && 1 <= d.pageLabel <= 2 * |Pages| - 1
    ensures (d.pageLabel - 1) / 2 == spread
    ensures d.leftSrc == ImagePath(d.pageLabel) && d.rightSrc == ImagePath(d.pageLabel + 1)
    ensures d.prevDisabled <==> d.pageLabel == 1
    ensures d.nextDisabled <==> d.pageLabel == 2 * |Pages| - 1
  {
    Display(Pages[spread].left, Pages[spread].right, 2 * spread + 1, spread == 0, spread == LastSpread)
  }

  /** The state of the preview: the closure variables `currentSpread` and `isFlipping`, whether
    * the modal is active, whether the end message is hidden, what `updateBookDisplay` last
    * wrote (None while the page still shows its static markup), and the number of pending
    * flip timers. */
  datatype Preview = Preview(
    spread: int,
    flipping: bool,
    modalOpen: bool,
    endHidden: bool,
    shown: Option<Display>,
    timers: nat)

  /** The invariant of the preview. The spread index stays in range; a set flip flag always has a
    * timer pending that will clear it; once rendered, the display shows the current spread
    * whenever no flip is in progress or no timer is pending; the end message is hidden whenever a
    * settled, rendered display shows a spread other than the last; an open modal has been rendered. */
  predicate Inv(p: Preview)
  {
    && 0 <= p.spread <= LastSpread
    && (p.flipping ==> p.timers > 0)
    && (p.shown.Some? && (!p.flipping || p.timers == 0) ==> p.shown.value == BookDisplay(p.spread))
    && (p.shown.Some? && !p.flipping && p.spread < LastSpread ==> p.endHidden)
    && (p.spread != 0 && !p.flipping ==> p.shown.Some?)
    && (p.modalOpen ==> p.shown.Some?)
  }

  /** The state after `initializeImagePreview`, given whether the markup hides the end message. */
  function Initial(endHidden: bool): (p: Preview)
    ensures Inv(p)
  {
    Preview(0, false, false, endHidden, None, 0)
  }

  /** `updateBookDisplay`: render the current spread, and hide the end message unless the
    * current spread is the last. */
  function Render(p: Preview): (r: Preview)
    requires 0 <= p.spread <= LastSpread
    ensures r.shown == Some(BookDisplay(p.spread))
    ensures r.endHidden <==> p.spread < LastSpread || p.endHidden
    ensures r.(shown := p.shown, endHidden := p.endHidden) == p
    ensures Inv(p) && !p.flipping ==> Inv(r)
  {
    p.(shown := Some(BookDisplay(p.spread)),
       endHidden := if p.spread < LastSpread then true else p.endHidden)
  }

  /** The open-button handler: show the modal, reset to the first spread, clear the flip flag
    * and render. */
  function OnOpen(p: Preview): (r: Preview)
    requires Inv(p)
    ensures Inv(r)
    ensures r.spread == 0 && !r.flipping && r.modalOpen && r.timers == p.timers
    ensures r.shown == Some(BookDisplay(0)) && r.endHidden
  {
    Render(p.(modalOpen := true, spread := 0, flipping := false))
  }

  /** `closeBook`: hide the modal; the spread and the flip flag are kept. */
  function OnClose(p: Preview): (r: Preview)
    requires Inv(p)
    ensures Inv(r)
    ensures !r.modalOpen && r.(modalOpen := p.modalOpen) == p
  {
    p.(modalOpen := false)
  }

  /** The previous-button handler: unless a flip is in progress or the first spread is shown,
    * step back one spread, set the flip flag and start a flip timer. */
  function OnPrev(p: Preview): (r: Preview)
    requires Inv(p)
    ensures Inv(r)
  {
    if p.spread > 0 && !p.flipping then
      p.(flipping := true, spread := p.spread - 1, timers := p.timers + 1)
    else
      p
  }

  /** The next-button handler: unless a flip is in progress, step forward one spread (setting the
    * flip flag and starting a flip timer), or on the last spread un-hide the end message. */
  function OnNext(p: Preview): (r: Preview)
    requires Inv(p)
    ensures Inv(r)
  {
    if p.spread < LastSpread && !p.flipping then
      p.(flipping := true, spread := p.spread + 1, timers := p.timers + 1)
    else if p.spread == LastSpread && !p.flipping then
      p.(endHidden := false)
    else
      p
  }

  /** A flip timer fires: `updateBookDisplay`, then clear the flip flag. */
  function OnFlipTimer(p: Preview): (r: Preview)
    requires Inv(p) && p.timers > 0
    ensures Inv(r)
    ensures !r.flipping && r.timers == p.timers - 1 && r.spread == p.spread
    ensures r.shown == Some(BookDisplay(p.spread))
    ensures r.modalOpen == p.modalOpen && (r.endHidden <==> p.spread < LastSpread || p.endHidden)
  {
    Render(p).(flipping := false, timers := p.timers - 1)
  }

  /** The spread moves by exactly one, and only when no flip is in progress: `OnNext` advances
    * from any spread but the last, `OnPrev` goes back from any spread but the first, and both
    * set the flip flag and start a timer when they move. A move changes nothing else: the modal,
    * the end message and the display stay as they were until the timer renders. */
  lemma StepsMoveByOne(p: Preview)
    requires Inv(p)
    ensures OnNext(p).spread == if p.spread < LastSpread && !p.flipping then p.spread + 1 else p.spread
    ensures OnPrev(p).spread == if p.spread > 0 && !p.flipping then p.spread - 1 else p.spread
    ensures OnNext(p).spread != p.spread ==> OnNext(p).flipping && OnNext(p).timers == p.timers + 1
    ensures OnPrev(p).spread != p.spread ==> OnPrev(p).flipping && OnPrev(p).timers == p.timers + 1
    ensures p.spread < LastSpread && !p.flipping ==>
      OnNext(p) == p.(flipping := true, spread := p.spread + 1, timers := p.timers + 1)
    ensures p.spread > 0 && !p.flipping ==>
      OnPrev(p) == p.(flipping := true, spread := p.spread - 1, timers := p.timers + 1)
  {
  }

  /** `OnNext` on the last spread while not flipping only un-hides the end message. */
  lemma NextAtEndShowsMessage(p: Preview)
    requires Inv(p) && p.spread == LastSpread && !p.flipping
    ensures OnNext(p) == p.(endHidden := false)
  {
  }

  /** While a flip is in progress, the previous and next handlers change nothing at all. */
  lemma FlippingIgnoresNavigation(p: Preview)
    requires Inv(p) && p.flipping
    ensures OnPrev(p) == p && OnNext(p) == p
  {
  }

  /** On a settled display, the rendered disabled flags say exactly when the handlers would do
    * nothing: previous is disabled iff `OnPrev` keeps the state, next is disabled iff `OnNext`
    * would not move the spread. */
  lemma ButtonsMatchHandlers(p: Preview)
    requires Inv(p) && !p.flipping && p.shown.Some?
    ensures p.shown.value.prevDisabled <==> OnPrev(p) == p
    ensures p.shown.value.nextDisabled <==> OnNext(p).spread == p.spread
  {
  }

  /** The page keys the document-level `keydown` listener reacts to. */
  datatype Key = ArrowLeft | ArrowRight | Escape | OtherKey

  /** Whether the previous (resp. next) button is enabled in the page: a button the script has
    * not yet rendered keeps its markup state, taken to be enabled. */
  predicate PrevEnabled(p: Preview)
  {
    p.shown.None? || !p.shown.value.prevDisabled
  }

  predicate NextEnabled(p: Preview)
  {
    p.shown.None? || !p.shown.value.nextDisabled
  }

  /** A click on the previous button, by the mouse or by `click()`: the browser runs the handler
    * only on an enabled button. On a settled display this is the handler exactly when the first
    * spread is not shown, and nothing otherwise. */
  function OnPrevClick(p: Preview): (r: Preview)
    requires Inv(p)
    ensures Inv(r)
    ensures p.flipping ==> r == p
    ensures !p.flipping ==> r == (if p.spread > 0 then OnPrev(p) else p)
  {
    if PrevEnabled(p) then OnPrev(p) else p
  }

  /** A click on the next button. On a settled display this is the handler exactly when the last
    * spread is not shown: on the last spread the button is disabled and the click does nothing. */
  function OnNextClick(p: Preview): (r: Preview)
    requires Inv(p)
    ensures Inv(r)
    ensures p.flipping ==> r == p
    ensures !p.flipping ==> r == (if p.spread < LastSpread then OnNext(p) else p)
  {
    if NextEnabled(p) then OnNext(p) else p
  }

  /** The `keydown` listener: only while the modal is active, an arrow key clicks the matching
    * button and Escape closes; any other key, or any key while the modal is hidden, does nothing. */
  function OnKey(p: Preview, key: Key): (r: Preview)
    requires Inv(p)
    ensures Inv(r)
    ensures !p.modalOpen || key == OtherKey ==> r == p
    ensures p.modalOpen && key == Escape ==> r == OnClose(p)
    ensures p.modalOpen && key == ArrowLeft ==> r == OnPrevClick(p)
    ensures p.modalOpen && key == ArrowRight ==> r == OnNextClick(p)
  {
    if !p.modalOpen then p
    else
      match key
      case ArrowLeft => OnPrevClick(p)
      case ArrowRight => OnNextClick(p)
      case Escape => OnClose(p)
      case OtherKey => p
  }

  /** The events of the preview: the open and close controls, a click on the previous or next
    * button, a keyboard press, and the firing of a pending flip timer. */
  datatype Event = OpenClicked | CloseClicked | PrevClicked | NextClicked | KeyDown(key: Key) | TimerFired

  /** One event; a timer can only fire while one is pending. */
  function Step(p: Preview, e: Event): (r: Preview)
    requires Inv(p)
    ensures Inv(r)
  {
    match e
    case OpenClicked => OnOpen(p)
    case CloseClicked => OnClose(p)
    case PrevClicked => OnPrevClick(p)
    case NextClicked => OnNextClick(p)
    case KeyDown(k) => OnKey(p, k)
    case TimerFired => if p.timers > 0 then OnFlipTimer(p) else p
  }

  /** A sequence of events, in order. Every reachable state satisfies `Inv`: in particular the
    * spread index stays within the `pages` array and a set flip flag is always cleared later. */
  function Run(p: Preview, events: seq<Event>): (r: Preview)
    requires Inv(p)
    ensures Inv(r)
    decreases |events|
  {
    if events == [] then p else Run(Step(p, events[0]), events[1..])
  }

  /** Clicks and key presses that navigate: any number of previous and next requests made while
    * a flip is in progress are dropped, not queued. */
  predicate IsNavigation(e: Event)
  {
    e.PrevClicked? || e.NextClicked? || (e.KeyDown? && e.key != Escape)
  }

  lemma {:induction false} NavigationDroppedWhileFlipping(p: Preview, events: seq<Event>)
    requires Inv(p) && p.flipping
    requires forall i :: 0 <= i < |events| ==> IsNavigation(events[i])
    ensures Run(p, events) == p
    decreases |events|
  {
    if events != [] {
      assert Step(p, events[0]) == p;
      NavigationDroppedWhileFlipping(p, events[1..]);
    }
  }

  /** No click, key press or timer ever reveals a hidden end message: on the last spread a settled
    * display has disabled the next button, so no click reaches the branch of the next handler
    * that un-hides it. */
  lemma {:induction false} EndMessageStaysHidden(p: Preview, events: seq<Event>)
    requires Inv(p) && p.endHidden
    ensures Run(p, events).endHidden
    decreases |events|
  {
    if events != [] {
      var q := Step(p, events[0]);
      assert q.endHidden;
      EndMessageStaysHidden(q, events[1..]);
    }
  }

  /** Next from a settled spread that is not the last, then the timer: the following spread is
    * shown with page label `2 * (spread + 1) + 1` and the flip flag is clear again. */
  lemma NextThenTimerShowsFollowingSpread(p: Preview)
    requires Inv(p) && !p.flipping && p.spread < LastSpread
    ensures var r := Run(p, [NextClicked, TimerFired]);
      && r.spread == p.spread + 1 && !r.flipping && r.timers == p.timers
      && r.shown == Some(BookDisplay(p.spread + 1))
      && r.shown.value.pageLabel == 2 * (p.spread + 1) + 1
  {
    var q := Step(p, NextClicked);
    assert Run(p, [NextClicked, TimerFired]) == Run(q, [TimerFired]);
    assert Run(q, [TimerFired]) == Step(q, TimerFired);
  }

  /** The preview as the script holds it: the closure variables of `initializeImagePreview` and
    * the DOM state its handlers write. */
  class BookPreview {
    var currentSpread: int
    var isFlipping: bool
    var modalActive: bool
    var endMessageHidden: bool
    var display: Option<Display>
    var pendingTimers: nat

    /** The abstract value of this object. */
    function State(): Preview
      reads this
    {
      Preview(currentSpread, isFlipping, modalActive, endMessageHidden, display, pendingTimers)
    }

    predicate Valid()
      reads this
    {
      Inv(State())
    }

    constructor (markupHidesEndMessage: bool)
      ensures Valid() && State() == Initial(markupHidesEndMessage)
    {
      currentSpread := 0;
      isFlipping := false;
      modalActive := false;
      endMessageHidden := markupHidesEndMessage;
      display := None;
      pendingTimers := 0;
    }

    /** `updateBookDisplay`. */
    method UpdateBookDisplay()
      requires 0 <= currentSpread <= LastSpread
      modifies this
      ensures State() == Render(old(State()))
    {
      var spread := Pages[currentSpread];
      display := Some(Display(spread.left, spread.right, currentSpread * 2 + 1,
                              currentSpread == 0, currentSpread == |Pages| - 1));
      if currentSpread < |Pages| - 1 {
        endMessageHidden := true;
      }
    }

    method Open()
      requires Valid()
      modifies this
      ensures Valid() && State() == OnOpen(old(State()))
    {
      modalActive := true;
      currentSpread := 0;
      isFlipping := false;
      UpdateBookDisplay();
    }

    method Close()
      requires Valid()
      modifies this
      ensures Valid() && State() == OnClose(old(State()))
    {
      modalActive := false;
    }

    method Prev()
      requires Valid()
      modifies this
      ensures Valid() && State() == OnPrev(old(State()))
    {
      if currentSpread > 0 && !isFlipping {
        isFlipping := true;
        currentSpread := currentSpread - 1;
        pendingTimers := pendingTimers + 1;
      }
    }

    method Next()
      requires Valid()
      modifies this
      ensures Valid() && State() == OnNext(old(State()))
    {
      if currentSpread < |Pages| - 1 && !isFlipping {
        isFlipping := true;
        currentSpread := currentSpread + 1;
        pendingTimers := pendingTimers + 1;
      } else if currentSpread == |Pages| - 1 && !isFlipping {
        endMessageHidden := false;
      }
    }

    /** The callback of one pending flip timer. */
    method FinishFlip()
      requires Valid() && pendingTimers > 0
      modifies this
      ensures Valid() && State() == OnFlipTimer(old(State()))
    {
      UpdateBookDisplay();
      isFlipping := false;
      pendingTimers := pendingTimers - 1;
    }

    /** `prevBtn.click()`, or a mouse click on the previous button. */
    method ClickPrev()
      requires Valid()
      modifies this
      ensures Valid() && State() == OnPrevClick(old(State()))
    {
      if display.None? || !display.value.prevDisabled {
        Prev();
      }
    }

    /** `nextBtn.click()`, or a mouse click on the next button. */
    method ClickNext()
      requires Valid()
      modifies this
      ensures Valid() && State() == OnNextClick(old(State()))
    {
      if display.None? || !display.value.nextDisabled {
        Next();
      }
    }

    /** The `keydown` listener. */
    method KeyDown(key: Key)
      requires Valid()
      modifies this
      ensures Valid() && State() == OnKey(old(State()), key)
    {
      if modalActive {
        match key
        case ArrowLeft =>
          ClickPrev();
        case ArrowRight =>
          ClickNext();
        case Escape =>
          Close();
        case OtherKey =>
      }
    }
  }
}
