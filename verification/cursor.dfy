/**
 * The custom two-part mouse cursor: an inner mark placed at the pointer at once, an outer
 * mark that follows it one animation frame at a time, and the `cursor-click`,
 * `cursor-hover` and opacity flags on the `.custom-cursor` element.
 *
 * The state of the component and of the DOM it writes is the value `CursorState`; each
 * listener and method is a function on it, and the class `CustomCursor` holds the same
 * state in fields that its methods update in place.
 */
module Cursor {

  /** An inline `left`/`top` pair on a cursor mark; `Unset` until first written. */
  datatype Pos = Unset | At(x: real, y: real)

  /** Which of `.custom-cursor`, `.cursor-inner` and `.cursor-outer` the page contains. */
  datatype Elements = Elements(hasCursor: bool, hasInner: bool, hasOuter: bool)

  datatype CursorState = CursorState(
    bound: bool,       // init got past its guard and registered the document listeners
    hoverBound: bool,  // updateHoverElements has attached the enter/leave listeners
    animating: bool,   // an animation frame is requested for animateOuterCursor
    mouseX: real, mouseY: real,
    outerX: real, outerY: real,
    isMoving: bool,
    isVisible: bool,
    clicked: bool,     // `cursor-click` in the class list of the cursor element
    hovered: bool,     // `cursor-hover` in the class list of the cursor element
    opacity: string,   // inline `style.opacity` of the cursor element
    inner: Pos,        // inline position of the inner mark
    outer: Pos)        // inline position of the outer mark

  /** Fraction of the remaining distance the outer mark covers per frame. */
  const Lerp: real := 0.15
  /** Below this distance on both axes the outer mark stops being animated. */
  const StopDistance: real := 0.5

  function Abs(x: real): real { if x < 0.0 then -x else x }

  /** Everything the constructor sets before `init` looks for the cursor element. */
  const Blank := CursorState(false, false, false, 0.0, 0.0, 0.0, 0.0, false, true, false, false, "", Unset, Unset)

  /** The state after `new CustomCursor()`: the fields, then `init` (updateHoverElements,
      bindEvents, and the first animateOuterCursor call, which only requests a frame
      because nothing is moving yet). Without the cursor element init does nothing. */
  function Initial(el: Elements): (s: CursorState)
    ensures s.mouseX == 0.0 && s.mouseY == 0.0 && s.outerX == 0.0 && s.outerY == 0.0
    ensures !s.isMoving && s.isVisible
    ensures s.bound == el.hasCursor && s.hoverBound == el.hasCursor && s.animating == el.hasCursor
    ensures !el.hasCursor ==> s == Blank
    ensures !s.clicked && !s.hovered && s.inner == Unset && s.outer == Unset
  {
    if !el.hasCursor then Blank
    else Rescanned(Blank, el).(bound := true, animating := true)
  }

  /** The `mousemove` listener: the pointer coordinates are always recorded and mark the
      cursor as moving; the inner mark follows only while the cursor is visible. Without
      `.cursor-inner` that write throws after the fields were set, which leaves the same state. */
  function Moved(s: CursorState, el: Elements, x: real, y: real): (r: CursorState)
    ensures s.bound ==> r.mouseX == x && r.mouseY == y && r.isMoving
    ensures r.inner == (if s.bound && s.isVisible && el.hasInner then At(x, y) else s.inner)
    ensures r.(mouseX := s.mouseX, mouseY := s.mouseY, isMoving := s.isMoving, inner := s.inner) == s
  {
    if !s.bound then s
    else
      var r := s.(mouseX := x, mouseY := y, isMoving := true);
      if s.isVisible && el.hasInner then r.(inner := At(x, y)) else r
  }

  /** The `mousedown` listener: `cursor-click` is added only while the cursor is visible. */
  function Pressed(s: CursorState): (r: CursorState)
    ensures r.clicked <==> s.clicked || (s.bound && s.isVisible)
    ensures r.(clicked := s.clicked) == s
  {
    if s.bound && s.isVisible then s.(clicked := true) else s
  }

  /** The `mouseup` listener: `cursor-click` is removed whatever the visibility. */
  function Released(s: CursorState): (r: CursorState)
    ensures s.bound ==> !r.clicked
    ensures r.(clicked := s.clicked) == s
  {
    if s.bound then s.(clicked := false) else s
  }

  /** `mouseleave` on the document, and `hide()`: opacity '0', not visible. */
  function Hidden(s: CursorState): (r: CursorState)
    ensures !r.isVisible && r.opacity == "0"
    ensures r.(isVisible := s.isVisible, opacity := s.opacity) == s
  {
    s.(opacity := "0", isVisible := false)
  }

  /** `mouseenter` on the document, and `show()`: opacity '1', visible. */
  function Shown(s: CursorState): (r: CursorState)
    ensures r.isVisible && r.opacity == "1"
    ensures r.(isVisible := s.isVisible, opacity := s.opacity) == s
  {
    s.(opacity := "1", isVisible := true)
  }

  /** `handleMouseEnter` on an interactive element: `cursor-hover` only while visible. The
      listener exists only once updateHoverElements has run. */
  function HoverOn(s: CursorState): (r: CursorState)
    ensures r.hovered <==> s.hovered || (s.hoverBound && s.isVisible)
    ensures r.(hovered := s.hovered) == s
  {
    if s.hoverBound && s.isVisible then s.(hovered := true) else s
  }

  /** `handleMouseLeave` on an interactive element: `cursor-hover` removed. */
  function HoverOff(s: CursorState): (r: CursorState)
    ensures s.hoverBound ==> !r.hovered
    ensures r.(hovered := s.hovered) == s
  {
    if s.hoverBound then s.(hovered := false) else s
  }

  /** `updateHoverElements` and `refresh()`: `cursor-hover` cleared and the interactive
      elements (re)bound. Without the cursor element the first statement throws. */
  function Rescanned(s: CursorState, el: Elements): (r: CursorState)
    ensures el.hasCursor ==> !r.hovered && r.hoverBound
    ensures !el.hasCursor ==> r == s
    ensures r.(hovered := s.hovered, hoverBound := s.hoverBound) == s
  {
    if el.hasCursor then s.(hovered := false, hoverBound := true) else s
  }

  /** One animation frame of `animateOuterCursor`. While moving and visible the outer mark
      covers `Lerp` of the remaining distance on each axis and stops being animated once it
      is within `StopDistance` on both; otherwise the frame changes nothing. Without
      `.cursor-outer` the style write throws after the coordinates moved, and no further
      frame is requested. */
  function Frame(s: CursorState, el: Elements): (r: CursorState)
    ensures !(s.animating && s.isMoving && s.isVisible) ==> r == s
    ensures s.animating && s.isMoving && s.isVisible ==>
              r.mouseX - r.outerX == (1.0 - Lerp) * (s.mouseX - s.outerX)
              && r.mouseY - r.outerY == (1.0 - Lerp) * (s.mouseY - s.outerY)
    ensures r.animating == (s.animating && (el.hasOuter || !(s.isMoving && s.isVisible)))
    ensures r.isMoving ==> s.isMoving
    ensures r.(outerX := s.outerX, outerY := s.outerY, isMoving := s.isMoving, animating := s.animating,
               outer := s.outer) == s
  {
    if !(s.animating && s.isMoving && s.isVisible) then s
    else
      var ox := s.outerX + (s.mouseX - s.outerX) * Lerp;
      var oy := s.outerY + (s.mouseY - s.outerY) * Lerp;
      if !el.hasOuter then s.(outerX := ox, outerY := oy, animating := false)
      else
        var settled := Abs(s.mouseX - ox) < StopDistance && Abs(s.mouseY - oy) < StopDistance;
        s.(outerX := ox, outerY := oy, outer := At(ox, oy), isMoving := !settled)
  }

  /** The inputs the component reacts to. */
  datatype Event =
    | MouseMove(x: real, y: real)
    | MouseDown
    | MouseUp
    | DocumentLeave
    | DocumentEnter
    | HoverEnter      // mouseenter on an interactive element
    | HoverLeave      // mouseleave on an interactive element
    | AnimationFrame
    | RefreshCall     // refresh(), e.g. from the certificate modal
    | HideCall
    | ShowCall

  function Step(s: CursorState, el: Elements, e: Event): CursorState
  {
    match e
    case MouseMove(x, y) => Moved(s, el, x, y)
    case MouseDown => Pressed(s)
    case MouseUp => Released(s)
    case DocumentLeave => if s.bound then Hidden(s) else s
    case DocumentEnter => if s.bound then Shown(s) else s
    case HoverEnter => HoverOn(s)
    case HoverLeave => HoverOff(s)
    case AnimationFrame => Frame(s, el)
    case RefreshCall => Rescanned(s, el)
    // hide() and show() write the cursor element's style first, which throws without it
    case HideCall => if el.hasCursor then Hidden(s) else s
    case ShowCall => if el.hasCursor then Shown(s) else s
  }

  function Run(s: CursorState, el: Elements, evs: seq<Event>): CursorState
    decreases |evs|
  {
    if evs == [] then s else Run(Step(s, el, evs[0]), el, evs[1..])
  }

  /** What holds of every state the component can reach. */
  ghost predicate Inv(s: CursorState, el: Elements)
  {
    && (s.opacity == "" || s.opacity == "0" || s.opacity == "1")
    && (s.isVisible <==> s.opacity != "0")
    && (s.animating ==> s.bound)
    && (s.bound ==> s.hoverBound)
    && (s.hoverBound ==> el.hasCursor)
    && (s.inner != Unset ==> el.hasInner)
    && (s.outer != Unset ==> el.hasOuter)
    && (s.outer == Unset || s.outer == At(s.outerX, s.outerY))
  }

  lemma InitialInv(el: Elements)
    ensures Inv(Initial(el), el)
  {
  }

  lemma StepInv(s: CursorState, el: Elements, e: Event)
    requires Inv(s, el)
    ensures Inv(Step(s, el, e), el)
  {
  }

  /** The invariant holds after any sequence of events. */
  lemma {:induction false} RunInv(s: CursorState, el: Elements, evs: seq<Event>)
    requires Inv(s, el)
    ensures Inv(Run(s, el, evs), el)
    decreases |evs|
  {
    if evs != [] {
      StepInv(s, el, evs[0]);
      RunInv(Step(s, el, evs[0]), el, evs[1..]);
    }
  }

  /** Every reachable state: the opacity shows the visibility flag. */
  lemma {:induction false} ReachableVisibility(el: Elements, evs: seq<Event>)
    ensures var s := Run(Initial(el), el, evs);
            s.isVisible <==> s.opacity != "0"
  {
    InitialInv(el);
    RunInv(Initial(el), el, evs);
  }

  predicate AllMoves(evs: seq<Event>)
  {
    forall i :: 0 <= i < |evs| ==> evs[i].MouseMove?
  }

  /** Zero lag: after pointer moves while the cursor is visible, the inner mark stands at
      the coordinates of the last move, which are also the recorded pointer position. */
  lemma {:induction false} InnerFollowsLastMove(s: CursorState, el: Elements, evs: seq<Event>)
    requires s.bound && s.isVisible && el.hasInner
    requires |evs| > 0 && AllMoves(evs)
    ensures var r := Run(s, el, evs);
            var last := evs[|evs| - 1];
            r.inner == At(last.x, last.y) && r.mouseX == last.x && r.mouseY == last.y
            && r.isMoving && r.isVisible
    decreases |evs|
  {
    var next := Step(s, el, evs[0]);
    if |evs| == 1 {
      assert evs[1..] == [];
    } else {
      assert AllMoves(evs[1..]) by {
        forall i | 0 <= i < |evs[1..]| ensures evs[1..][i].MouseMove? {
          assert evs[1..][i] == evs[i + 1];
        }
      }
      InnerFollowsLastMove(next, el, evs[1..]);
      assert evs[1..][|evs[1..]| - 1] == evs[|evs| - 1];
    }
  }

  /** A frame never moves the outer mark away from the pointer, and while it animates it
      strictly closes any remaining gap. */
  lemma FrameNeverIncreasesDistance(s: CursorState, el: Elements)
    ensures var r := Frame(s, el);
            Abs(r.mouseX - r.outerX) <= Abs(s.mouseX - s.outerX)
            && Abs(r.mouseY - r.outerY) <= Abs(s.mouseY - s.outerY)
    ensures var r := Frame(s, el);
            s.animating && s.isMoving && s.isVisible && s.mouseX != s.outerX ==>
              Abs(r.mouseX - r.outerX) < Abs(s.mouseX - s.outerX)
  {
  }

  function Frames(n: nat): (evs: seq<Event>)
    ensures |evs| == n && forall i :: 0 <= i < n ==> evs[i] == AnimationFrame
  {
    if n == 0 then [] else [AnimationFrame] + Frames(n - 1)
  }

  /** Idle optimisation: once the outer mark stopped (or the cursor is hidden), any number
      of animation frames leaves the state unchanged. */
  lemma {:induction false} IdleFramesChangeNothing(s: CursorState, el: Elements, n: nat)
    requires !s.isMoving || !s.isVisible
    ensures Run(s, el, Frames(n)) == s
  {
    if n > 0 {
      assert Frames(n)[1..] == Frames(n - 1);
      IdleFramesChangeNothing(s, el, n - 1);
    }
  }

  class CustomCursor {
    const el: Elements
    var bound: bool
    var hoverBound: bool
    var animating: bool
    var mouseX: real
    var mouseY: real
    var outerX: real
    var outerY: real
    var isMoving: bool
    var isVisible: bool
    var clicked: bool
    var hovered: bool
    var opacity: string
    var inner: Pos
    var outer: Pos

    function Model(): CursorState
      reads this
    {
      CursorState(bound, hoverBound, animating, mouseX, mouseY, outerX, outerY,
                  isMoving, isVisible, clicked, hovered, opacity, inner, outer)
    }

    ghost predicate Valid()
      reads this
    {
      Inv(Model(), el)
    }

    constructor (el: Elements)
      ensures this.el == el && Model() == Initial(el) && Valid()
    {
      this.el := el;
      mouseX, mouseY := 0.0, 0.0;
      outerX, outerY := 0.0, 0.0;
      isMoving := false;
      isVisible := true;
      bound, hoverBound, animating := false, false, false;
      clicked, hovered := false, false;
      opacity := "";
      inner, outer := Unset, Unset;
      new;
      if el.hasCursor {
        UpdateHoverElements();
        bound := true;
        animating := true;
      }
      InitialInv(el);
    }

    method OnMouseMove(x: real, y: real)
      requires Valid()
      modifies this
      ensures Valid() && Model() == Moved(old(Model()), el, x, y)
    {
      if bound {
        mouseX, mouseY := x, y;
        isMoving := true;
        if isVisible && el.hasInner {
          inner := At(x, y);
        }
      }
    }

    method OnMouseDown()
      requires Valid()
      modifies this
      ensures Valid() && Model() == Pressed(old(Model()))
    {
      if bound && isVisible {
        clicked := true;
      }
    }

    method OnMouseUp()
      requires Valid()
      modifies this
      ensures Valid() && Model() == Released(old(Model()))
    {
      if bound {
        clicked := false;
      }
    }

    method OnMouseLeave()
      requires Valid()
      modifies this
      ensures Valid() && Model() == Step(old(Model()), el, DocumentLeave)
    {
      if bound {
        opacity := "0";
        isVisible := false;
      }
    }

    method OnMouseEnter()
      requires Valid()
      modifies this
      ensures Valid() && Model() == Step(old(Model()), el, DocumentEnter)
    {
      if bound {
        opacity := "1";
        isVisible := true;
      }
    }

    method UpdateHoverElements()
      requires el.hasCursor
      modifies this
      ensures Model() == Rescanned(old(Model()), el)
    {
      hovered := false;
      hoverBound := true;
    }

    method HandleMouseEnter()
      requires Valid()
      modifies this
      ensures Valid() && Model() == HoverOn(old(Model()))
    {
      if hoverBound && isVisible {
        hovered := true;
      }
    }

    method HandleMouseLeave()
      requires Valid()
      modifies this
      ensures Valid() && Model() == HoverOff(old(Model()))
    {
      if hoverBound {
        hovered := false;
      }
    }

    /** One requested animation frame. */
    method AnimateOuterCursor()
      requires Valid()
      modifies this
      ensures Valid() && Model() == Frame(old(Model()), el)
    {
      if animating && isMoving && isVisible {
        outerX := outerX + (mouseX - outerX) * Lerp;
        outerY := outerY + (mouseY - outerY) * Lerp;
        if !el.hasOuter {
          animating := false;
          return;
        }
        outer := At(outerX, outerY);
        if Abs(mouseX - outerX) < StopDistance && Abs(mouseY - outerY) < StopDistance {
          isMoving := false;
        }
      }
    }

    /** refresh(); `ok` is false when the missing cursor element made it throw. */
    method Refresh() returns (ok: bool)
      requires Valid()
      modifies this
      ensures ok == el.hasCursor
      ensures Valid() && Model() == Rescanned(old(Model()), el)
    {
      ok := el.hasCursor;
      if ok {
        UpdateHoverElements();
      }
    }

    method Hide() returns (ok: bool)
      requires Valid()
      modifies this
      ensures ok == el.hasCursor
      ensures Valid() && Model() == Step(old(Model()), el, HideCall)
    {
      ok := el.hasCursor;
      if ok {
        opacity := "0";
        isVisible := false;
      }
    }

    method Show() returns (ok: bool)
      requires Valid()
      modifies this
      ensures ok == el.hasCursor
      ensures Valid() && Model() == Step(old(Model()), el, ShowCall)
    {
      ok := el.hasCursor;
      if ok {
        opacity := "1";
        isVisible := true;
      }
    }
  }
}
