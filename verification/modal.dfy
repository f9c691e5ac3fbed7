/**
 * The certificate modal: a two-state (closed/open) overlay that locks the page scroll while
 * open, moves focus after a delay, refreshes the custom cursor's hover list, adjusts its
 * content on rotation and resize, and shares the page through a fallback chain (native
 * share, asynchronous clipboard, `execCommand('copy')`) with timed feedback on the share
 * button.
 *
 * Timers and animation-frame callbacks are entries of `pending`; `Fired` runs one of them.
 * The promise chains of sharing and copying are taken as one step whose platform outcomes
 * are given as parameters.
 */
module Modal {
  import opened Wrappers
  import Cursor

  const ShareText: string :=
    "🏆 Daniel Poledník - 39. místo z téměř 6000 účastníků na TryHackMe CTF 'Industrial Intrusion'! 🔒 #cybersecurity #CTF #TryHackMe"
  const SuccessHtml: string := "<span>Zkopírováno!</span><div class=\"button-icon\">✓</div>"
  const ErrorHtml: string := "<span>Chyba</span><div class=\"button-icon\">⚠️</div>"
  const ScrollLocked: string := "hidden"
  const EscapeKey: string := "Escape"

  /** The text copied to the clipboard: the announcement, a space, and the page URL. */
  function FullShareText(url: string): (t: string)
    ensures |t| == |ShareText| + 1 + |url|
    ensures t[..|ShareText|] == ShareText && t[|ShareText|] == ' ' && t[|ShareText| + 1..] == url
  {
    ShareText + " " + url
  }

  /** `'ontouchstart' in window || navigator.maxTouchPoints > 0`. */
  function IsTouchDevice(hasOnTouchStart: bool, maxTouchPoints: int): bool
  {
    hasOnTouchStart || maxTouchPoints > 0
  }

  /** The page the modal lives in: which of `#certificateBtn`, `#certificateModal`,
      `#modalClose`, `#shareBtn` and `.modal-content` exist, whether the device is a touch
      device, and whether a custom cursor is installed (`window.customCursor`). */
  datatype Page = Page(hasTrigger: bool, hasModal: bool, hasClose: bool, hasShare: bool,
                       hasContent: bool, isTouch: bool, hasCursor: bool)

  /** The element holding the keyboard focus, as far as the modal moves it. */
  datatype Focus = Body | CloseButton | TriggerButton | CopyArea

  /** A callback waiting for its timer (delay in ms) or for the next animation frame. */
  datatype Deferred =
    | RefreshCursor                      // 100: refresh the custom cursor's hover list
    | SettleAfterOpen                    // 300: focus the close button, or reset the content scroll
    | RefocusTrigger                     // 100: give the focus back to the trigger button
    | RestoreAfterSuccess(html: string)  // 2000: undo the success feedback
    | RestoreAfterError(html: string)    // 2000: undo the error feedback
    | AdjustAfterRotation                // 500: reset the content scroll and stretch its height
    | ClearMinHeight                     // next frame: drop the stretched height
    | StretchMinHeight                   // next frame: stretch the content to the window height

  datatype ModalState = ModalState(
    bound: bool,              // init found all four elements and registered the listeners
    active: bool,             // `active` in the class list of the modal
    overflow: string,         // inline `overflow` of the body
    focus: Focus,
    contentScrollTop: real,   // scrollTop of `.modal-content`
    minHeight: Option<int>,   // inline min-height of `.modal-content` in px; None while ''
    shareHtml: string,        // innerHTML of the share button
    shareSuccess: bool,       // `success` in the class list of the share button
    shareDisabled: bool,      // the share button's `disabled`
    clipboard: Option<string>,
    copyAreas: nat,           // temporary textareas attached to the body
    pending: seq<Deferred>)

  /** The state after `new ModalManager()`: init registers its listeners only if all four
      elements exist, and changes nothing else. */
  function Initial(page: Page, shareHtml0: string, scrollTop0: real): (s: ModalState)
    ensures s.bound <==> page.hasTrigger && page.hasModal && page.hasClose && page.hasShare
    ensures !s.active && s.overflow == "" && s.pending == [] && s.copyAreas == 0
    ensures s.shareHtml == shareHtml0 && !s.shareSuccess && !s.shareDisabled
  {
    ModalState(page.hasTrigger && page.hasModal && page.hasClose && page.hasShare,
               false, "", Body, scrollTop0, None, shareHtml0, false, false, None, 0, [])
  }

  /** `preventBodyScroll(prevent)`. */
  function ScrollPrevented(s: ModalState, prevent: bool): (r: ModalState)
    ensures r.overflow == ScrollLocked <==> prevent
    ensures r.(overflow := s.overflow) == s
  {
    s.(overflow := if prevent then ScrollLocked else "")
  }

  /** The timers `openModal` starts. */
  function OpenTimers(page: Page): seq<Deferred>
  {
    (if page.hasCursor && !page.isTouch then [RefreshCursor] else []) + [SettleAfterOpen]
  }

  /** The timers `closeModal` starts. */
  function CloseTimers(page: Page): seq<Deferred>
  {
    (if page.hasCursor && !page.isTouch then [RefreshCursor] else [])
    + (if !page.isTouch then [RefocusTrigger] else [])
  }

  /** `openModal`: show the modal, lock the page scroll, and schedule the cursor refresh
      (non-touch devices with a custom cursor) and the settle step after 300 ms. */
  function Opened(s: ModalState, page: Page): (r: ModalState)
    ensures r.active && r.overflow == ScrollLocked
    ensures r.pending == s.pending + OpenTimers(page)
    ensures r.(active := s.active, overflow := s.overflow, pending := s.pending) == s
  {
    ScrollPrevented(s.(active := true), true).(pending := s.pending + OpenTimers(page))
  }

  /** `closeModal`: hide the modal, unlock the page scroll, and schedule the cursor refresh
      and, on non-touch devices only, the return of focus to the trigger. */
  function Closed(s: ModalState, page: Page): (r: ModalState)
    ensures !r.active && r.overflow == ""
    ensures r.pending == s.pending + CloseTimers(page)
    ensures RefocusTrigger in r.pending[|s.pending|..] <==> !page.isTouch
    ensures r.(active := s.active, overflow := s.overflow, pending := s.pending) == s
  {
    var r := ScrollPrevented(s.(active := false), false).(pending := s.pending + CloseTimers(page));
    assert r.pending[|s.pending|..] == CloseTimers(page);
    r
  }

  /** `showSuccessMessage`: confirmation label, `success` class and a disabled button; the
      label it replaced comes back after 2000 ms. */
  function SuccessShown(s: ModalState): (r: ModalState)
    ensures r.shareHtml == SuccessHtml && r.shareSuccess && r.shareDisabled
    ensures r.pending == s.pending + [RestoreAfterSuccess(s.shareHtml)]
    ensures r.(shareHtml := s.shareHtml, shareSuccess := s.shareSuccess, shareDisabled := s.shareDisabled,
               pending := s.pending) == s
  {
    s.(shareHtml := SuccessHtml, shareSuccess := true, shareDisabled := true,
       pending := s.pending + [RestoreAfterSuccess(s.shareHtml)])
  }

  /** `showErrorMessage`: only the label changes, and the label it replaced comes back after
      2000 ms. */
  function ErrorShown(s: ModalState): (r: ModalState)
    ensures r.shareHtml == ErrorHtml
    ensures r.pending == s.pending + [RestoreAfterError(s.shareHtml)]
    ensures r.(shareHtml := s.shareHtml, pending := s.pending) == s
  {
    s.(shareHtml := ErrorHtml, pending := s.pending + [RestoreAfterError(s.shareHtml)])
  }

  /** What `document.execCommand('copy')` does: returns true, returns false, or throws. */
  datatype ExecOutcome = Copied | Refused | Threw

  /** `fallbackCopy(text)`: attach a focused off-screen textarea holding `text`, run the copy
      command, report success or error, and in every case remove the textarea again, which
      returns the focus to the body. */
  function FallbackCopied(s: ModalState, text: string, exec: ExecOutcome): (r: ModalState)
    ensures r.copyAreas == s.copyAreas
    ensures r.focus == Body
    ensures r.clipboard == if exec == Copied then Some(text) else s.clipboard
    ensures r.shareHtml == if exec == Copied then SuccessHtml else ErrorHtml
    ensures r.active == s.active && r.overflow == s.overflow
  {
    var attached := s.(copyAreas := s.copyAreas + 1, focus := CopyArea);
    var reported :=
      match exec
      case Copied => SuccessShown(attached.(clipboard := Some(text)))
      case Refused => ErrorShown(attached)
      case Threw => ErrorShown(attached);
    reported.(copyAreas := reported.copyAreas - 1, focus := Body)
  }

  /** The platform capabilities sharing looks at. */
  datatype Platform = Platform(hasNativeShare: bool, hasClipboardApi: bool, isSecureContext: bool,
                               url: string)

  /** How the platform answers: whether `navigator.share` and `clipboard.writeText` reject,
      and what the copy command does. */
  datatype Outcomes = Outcomes(nativeShareRejects: bool, clipboardRejects: bool, exec: ExecOutcome)

  /** `copyToClipboard(text)`: the clipboard API in a secure context, falling back to the
      copy command when it is unavailable or rejects. */
  function ClipboardCopied(s: ModalState, text: string, p: Platform, o: Outcomes): (r: ModalState)
    ensures p.hasClipboardApi && p.isSecureContext && !o.clipboardRejects ==>
              r == SuccessShown(s.(clipboard := Some(text)))
    ensures !(p.hasClipboardApi && p.isSecureContext && !o.clipboardRejects) ==>
              r == FallbackCopied(s, text, o.exec)
  {
    if p.hasClipboardApi && p.isSecureContext && !o.clipboardRejects then
      SuccessShown(s.(clipboard := Some(text)))
    else
      FallbackCopied(s, text, o.exec)
  }

  /** `handleShare`: native share on touch devices that offer it, the clipboard otherwise or
      when native share rejects. A native share that succeeds gives no feedback. */
  function Shared(s: ModalState, page: Page, p: Platform, o: Outcomes): (r: ModalState)
    ensures r.active == s.active && r.overflow == s.overflow && r.copyAreas == s.copyAreas
  {
    if p.hasNativeShare && page.isTouch then
      if o.nativeShareRejects then ClipboardCopied(s, FullShareText(p.url), p, o) else s
    else
      ClipboardCopied(s, FullShareText(p.url), p, o)
  }

  /** The share routes, as a flat table: the channels tried, in order. */
  datatype Channel = NativeShare | ClipboardApi | ExecCommand

  function Attempts(isTouch: bool, p: Platform, o: Outcomes): seq<Channel>
  {
    var native := p.hasNativeShare && isTouch;
    if native && !o.nativeShareRejects then [NativeShare]
    else
      (if native then [NativeShare] else [])
      + (if p.hasClipboardApi && p.isSecureContext then [ClipboardApi] else [])
      + (if p.hasClipboardApi && p.isSecureContext && !o.clipboardRejects then [] else [ExecCommand])
  }

  datatype Feedback = NoFeedback | SuccessFeedback | ErrorFeedback

  /** The feedback the last channel tried gives. */
  function FeedbackOf(isTouch: bool, p: Platform, o: Outcomes): Feedback
  {
    var a := Attempts(isTouch, p, o);
    if a[|a| - 1] == NativeShare then NoFeedback
    else if a[|a| - 1] == ClipboardApi || o.exec == Copied then SuccessFeedback
    else ErrorFeedback
  }

  /** The button and clipboard after a given feedback. */
  function Reported(s: ModalState, fb: Feedback, text: string): ModalState
  {
    match fb
    case NoFeedback => s
    case SuccessFeedback => SuccessShown(s.(clipboard := Some(text)))
    case ErrorFeedback => ErrorShown(s)
  }

  /** The routing rules of the table: native share is tried exactly on touch devices that
      offer it; the clipboard API exactly when that step is reached in a secure context
      that has it; the copy command exactly when the clipboard API is missing or rejects;
      and an error is shown exactly when the copy command was tried and did not copy. */
  lemma AttemptsRouting(isTouch: bool, p: Platform, o: Outcomes)
    ensures var a := Attempts(isTouch, p, o);
            var reachesCopy := !(p.hasNativeShare && isTouch) || o.nativeShareRejects;
            && (NativeShare in a <==> p.hasNativeShare && isTouch)
            && (ClipboardApi in a <==> reachesCopy && p.hasClipboardApi && p.isSecureContext)
            && (ExecCommand in a <==>
                  reachesCopy && !(p.hasClipboardApi && p.isSecureContext && !o.clipboardRejects))
            && (FeedbackOf(isTouch, p, o) == NoFeedback <==> !reachesCopy)
            && (FeedbackOf(isTouch, p, o) == ErrorFeedback <==> ExecCommand in a && o.exec != Copied)
  {
  }

  /** The feedback of the copy step alone, and whether it ran the copy command. */
  function CopyFeedback(p: Platform, o: Outcomes): Feedback
  {
    if p.hasClipboardApi && p.isSecureContext && !o.clipboardRejects then SuccessFeedback
    else if o.exec == Copied then SuccessFeedback
    else ErrorFeedback
  }

  predicate CopyUsesExec(p: Platform, o: Outcomes)
  {
    !(p.hasClipboardApi && p.isSecureContext && !o.clipboardRejects)
  }

  lemma CopyFollowsRoute(s: ModalState, text: string, p: Platform, o: Outcomes)
    ensures ClipboardCopied(s, text, p, o)
            == Reported(s, CopyFeedback(p, o), text).(focus := if CopyUsesExec(p, o) then Body else s.focus)
  {
    if CopyUsesExec(p, o) && o.exec == Copied {
      var attached := s.(copyAreas := s.copyAreas + 1, focus := CopyArea);
      assert SuccessShown(attached.(clipboard := Some(text))).(copyAreas := s.copyAreas, focus := Body)
          == SuccessShown(s.(clipboard := Some(text))).(focus := Body);
    }
  }

  /** `handleShare` as written (nested fallbacks) agrees with the flat routing table: the
      button and clipboard show the table's feedback, the copied text is the announcement
      plus the URL, and the focus goes to the body exactly when the copy command ran. */
  lemma ShareFollowsRoute(s: ModalState, page: Page, p: Platform, o: Outcomes)
    ensures Shared(s, page, p, o)
            == Reported(s, FeedbackOf(page.isTouch, p, o), FullShareText(p.url)).(
                 focus := if ExecCommand in Attempts(page.isTouch, p, o) then Body else s.focus)
  {
    var a := Attempts(page.isTouch, p, o);
    if !(p.hasNativeShare && page.isTouch) || o.nativeShareRejects {
      CopyFollowsRoute(s, FullShareText(p.url), p, o);
      assert FeedbackOf(page.isTouch, p, o) == CopyFeedback(p, o);
      assert ExecCommand in a <==> CopyUsesExec(p, o);
    }
  }

  /** `handleOrientationChange`: only while open, schedule the content adjustment. */
  function Rotated(s: ModalState): (r: ModalState)
    ensures !s.active ==> r == s
    ensures s.active ==> r == s.(pending := s.pending + [AdjustAfterRotation])
  {
    if s.active then s.(pending := s.pending + [AdjustAfterRotation]) else s
  }

  /** `handleResize`: only while open, on a touch device, with a content element, schedule
      stretching the content to the window height. */
  function Resized(s: ModalState, page: Page): (r: ModalState)
    ensures !(s.active && page.isTouch) ==> r == s
    ensures s.active && page.isTouch ==>
              r.pending == s.pending + (if page.hasContent then [StretchMinHeight] else [])
    ensures r.(pending := s.pending) == s
  {
    if s.active && page.isTouch && page.hasContent then s.(pending := s.pending + [StretchMinHeight])
    else s
  }

  /** The pending list without entry `i`. */
  function Without(q: seq<Deferred>, i: nat): (r: seq<Deferred>)
    requires i < |q|
    ensures |r| == |q| - 1
    ensures forall d :: d in r ==> d in q
  {
    q[..i] + q[i + 1..]
  }

  /** What callback `d` does once it runs, `rest` being the state with it already taken
      off the pending list and `innerHeight` the window height at that moment. */
  function Ran(rest: ModalState, page: Page, d: Deferred, innerHeight: int): (r: ModalState)
    ensures r.active == rest.active && r.overflow == rest.overflow && r.copyAreas == rest.copyAreas
    ensures r.pending == rest.pending + (if d == AdjustAfterRotation && page.hasContent then [ClearMinHeight] else [])
    ensures d == AdjustAfterRotation ==>
              if page.hasContent then r.contentScrollTop == 0.0 && r.minHeight == Some(innerHeight) else r == rest
    ensures d == ClearMinHeight ==> r.minHeight == None
    ensures d == StretchMinHeight ==> r.minHeight == Some(innerHeight)
    ensures d.RestoreAfterError? ==> r.shareHtml == d.html && r.shareDisabled == rest.shareDisabled
    ensures d.RestoreAfterSuccess? ==> r.shareHtml == d.html && !r.shareSuccess && !r.shareDisabled
    ensures d == RefocusTrigger ==> r.focus == TriggerButton
    ensures d == RefreshCursor ==> r == rest
  {
    match d
    case RefreshCursor => rest
    case SettleAfterOpen =>
      if page.isTouch then
        if page.hasContent then rest.(contentScrollTop := 0.0) else rest
      else rest.(focus := CloseButton)
    case RefocusTrigger => rest.(focus := TriggerButton)
    case RestoreAfterSuccess(html) => rest.(shareHtml := html, shareSuccess := false, shareDisabled := false)
    case RestoreAfterError(html) => rest.(shareHtml := html)
    case AdjustAfterRotation =>
      if page.hasContent then
        rest.(contentScrollTop := 0.0, minHeight := Some(innerHeight),
              pending := rest.pending + [ClearMinHeight])
      else rest
    case ClearMinHeight => rest.(minHeight := None)
    case StretchMinHeight => rest.(minHeight := Some(innerHeight))
  }

  /** The pending callback `i` runs (the model lets any of them be next). A stale callback
      runs whatever the modal's state. */
  function Fired(s: ModalState, page: Page, i: nat, innerHeight: int): (r: ModalState)
    ensures i >= |s.pending| ==> r == s
    ensures i < |s.pending| ==> |r.pending| >= |s.pending| - 1 && r.pending[..|s.pending| - 1] == Without(s.pending, i)
    ensures r.active == s.active && r.overflow == s.overflow && r.copyAreas == s.copyAreas
  {
    if i >= |s.pending| then s
    else Ran(s.(pending := Without(s.pending, i)), page, s.pending[i], innerHeight)
  }

  /** The inputs the modal reacts to. */
  datatype Event =
    | TriggerActivated                    // click or touchend on the certificate button
    | CloseActivated                      // click or touchend on the close button
    | ModalClicked(onOverlay: bool)       // a click in the modal; onOverlay: its target is the overlay itself
    | KeyDown(key: string)
    | ShareClicked(p: Platform, o: Outcomes)
    | OrientationChanged
    | WindowResized
    | TimerFired(index: nat, innerHeight: int)

  /** One event. A disabled share button receives no clicks. */
  function Step(s: ModalState, page: Page, e: Event): ModalState
  {
    match e
    case TriggerActivated => if s.bound then Opened(s, page) else s
    case CloseActivated => if s.bound then Closed(s, page) else s
    case ModalClicked(onOverlay) => if s.bound && onOverlay then Closed(s, page) else s
    case KeyDown(key) => if s.bound && s.active && key == EscapeKey then Closed(s, page) else s
    case ShareClicked(p, o) => if s.bound && !s.shareDisabled then Shared(s, page, p, o) else s
    case OrientationChanged => if s.bound then Rotated(s) else s
    case WindowResized => if s.bound then Resized(s, page) else s
    case TimerFired(i, h) => Fired(s, page, i, h)
  }

  function Run(s: ModalState, page: Page, evs: seq<Event>): ModalState
    decreases |evs|
  {
    if evs == [] then s else Run(Step(s, page, evs[0]), page, evs[1..])
  }

  /** The callbacks a page of this kind can ever have scheduled. */
  predicate Schedulable(d: Deferred, page: Page)
  {
    && (d.RefreshCursor? ==> page.hasCursor && !page.isTouch)
    && (d.RefocusTrigger? ==> !page.isTouch)
    && (d.StretchMinHeight? ==> page.isTouch && page.hasContent)
    && (d.ClearMinHeight? ==> page.hasContent)
  }

  /** What holds of every state the modal can reach. */
  ghost predicate Inv(s: ModalState, page: Page)
  {
    && (s.overflow == ScrollLocked <==> s.active)
    && (s.overflow == "" || s.overflow == ScrollLocked)
    && s.copyAreas == 0
    && (s.shareSuccess <==> s.shareDisabled)
    && (!s.bound ==> !s.active && s.pending == [])
    && (page.isTouch ==> s.focus != CloseButton && s.focus != TriggerButton)
    && (forall d :: d in s.pending ==> Schedulable(d, page))
  }

  lemma InitialInv(page: Page, shareHtml0: string, scrollTop0: real)
    ensures Inv(Initial(page, shareHtml0, scrollTop0), page)
  {
  }

  lemma SharedInv(s: ModalState, page: Page, p: Platform, o: Outcomes)
    requires Inv(s, page) && s.bound
    ensures Inv(Shared(s, page, p, o), page)
  {
    ShareFollowsRoute(s, page, p, o);
  }

  lemma AppendedSchedulable(q: seq<Deferred>, extra: seq<Deferred>, page: Page)
    requires forall d :: d in q ==> Schedulable(d, page)
    requires forall d :: d in extra ==> Schedulable(d, page)
    ensures forall d :: d in q + extra ==> Schedulable(d, page)
  {
  }

  lemma OpenedInv(s: ModalState, page: Page)
    requires Inv(s, page) && s.bound
    ensures Inv(Opened(s, page), page)
  {
    AppendedSchedulable(s.pending, OpenTimers(page), page);
  }

  lemma ClosedInv(s: ModalState, page: Page)
    requires Inv(s, page) && s.bound
    ensures Inv(Closed(s, page), page)
  {
    AppendedSchedulable(s.pending, CloseTimers(page), page);
  }

  lemma RotatedInv(s: ModalState, page: Page)
    requires Inv(s, page)
    ensures Inv(Rotated(s), page)
  {
    AppendedSchedulable(s.pending, [AdjustAfterRotation], page);
  }

  lemma ResizedInv(s: ModalState, page: Page)
    requires Inv(s, page)
    ensures Inv(Resized(s, page), page)
  {
    if s.active && page.isTouch && page.hasContent {
      AppendedSchedulable(s.pending, [StretchMinHeight], page);
    }
  }

  lemma FiredInv(s: ModalState, page: Page, i: nat, h: int)
    requires Inv(s, page)
    ensures Inv(Fired(s, page, i, h), page)
  {
    if i < |s.pending| {
      var d := s.pending[i];
      assert Schedulable(d, page);
      var rest := Without(s.pending, i);
      assert forall x :: x in rest ==> x in s.pending;
      var extra := if d == AdjustAfterRotation && page.hasContent then [ClearMinHeight] else [];
      AppendedSchedulable(rest, extra, page);
    }
  }

  lemma StepInv(s: ModalState, page: Page, e: Event)
    requires Inv(s, page)
    ensures Inv(Step(s, page, e), page)
  {
    if s.bound {
      match e
      case TriggerActivated => OpenedInv(s, page);
      case CloseActivated => ClosedInv(s, page);
      case ModalClicked(onOverlay) => if onOverlay { ClosedInv(s, page); }
      case KeyDown(key) => if s.active && key == EscapeKey { ClosedInv(s, page); }
      case ShareClicked(p, o) => if !s.shareDisabled { SharedInv(s, page, p, o); }
      case OrientationChanged => RotatedInv(s, page);
      case WindowResized => ResizedInv(s, page);
      case TimerFired(i, h) => FiredInv(s, page, i, h);
    } else {
      match e
      case TimerFired(i, h) => FiredInv(s, page, i, h);
      case _ =>
    }
  }

  /** The invariant holds after any sequence of events. */
  lemma {:induction false} RunInv(s: ModalState, page: Page, evs: seq<Event>)
    requires Inv(s, page)
    ensures Inv(Run(s, page, evs), page)
    decreases |evs|
  {
    if evs != [] {
      StepInv(s, page, evs[0]);
      RunInv(Step(s, page, evs[0]), page, evs[1..]);
    }
  }

  /** In every reachable state the page scroll is locked exactly while the modal is open,
      no temporary textarea is left behind, and a touch device never had its focus moved
      to a button. */
  lemma ScrollLockedIffOpen(page: Page, shareHtml0: string, scrollTop0: real, evs: seq<Event>)
    ensures var s := Run(Initial(page, shareHtml0, scrollTop0), page, evs);
            (s.overflow == ScrollLocked <==> s.active) && s.copyAreas == 0
            && (page.isTouch ==> s.focus != CloseButton && s.focus != TriggerButton)
  {
    InitialInv(page, shareHtml0, scrollTop0);
    RunInv(Initial(page, shareHtml0, scrollTop0), page, evs);
  }

  /** When init found an element missing, no event ever changes anything. */
  lemma {:induction false} UnboundModalIsInert(s: ModalState, page: Page, evs: seq<Event>)
    requires Inv(s, page) && !s.bound
    ensures Run(s, page, evs) == s
    decreases |evs|
  {
    if evs != [] {
      assert Step(s, page, evs[0]) == s;
      UnboundModalIsInert(s, page, evs[1..]);
    }
  }

  /** Only the trigger opens the modal; only the close button, a click on the overlay
      itself, and Escape while open close it; every other event leaves it as it is. */
  lemma OpenCloseTransitions(s: ModalState, page: Page, e: Event)
    requires s.bound
    ensures Step(s, page, e).active ==
            if e.TriggerActivated? then true
            else if e.CloseActivated? || e == ModalClicked(true) || (e == KeyDown(EscapeKey) && s.active) then false
            else s.active
  {
  }

  /** Escape while closed, any other key, and a click on something inside the modal change
      nothing at all. */
  lemma IgnoredEvents(s: ModalState, page: Page, key: string)
    ensures !(s.active && key == EscapeKey) ==> Step(s, page, KeyDown(key)) == s
    ensures Step(s, page, ModalClicked(false)) == s
  {
  }

  /** 300 ms after opening, a non-touch device focuses the close button, a touch device
      instead scrolls the content back to the top and keeps its focus. */
  lemma SettleAfterOpenEffect(s: ModalState, page: Page, h: int)
    requires s.bound
    ensures var o := Step(s, page, TriggerActivated);
            var r := Fired(o, page, |o.pending| - 1, h);
            && o.pending[|o.pending| - 1] == SettleAfterOpen
            && (!page.isTouch ==> r.focus == CloseButton)
            && (page.isTouch ==> r.focus == s.focus)
            && (page.isTouch && page.hasContent ==> r.contentScrollTop == 0.0)
            && r.active && r.overflow == ScrollLocked
  {
  }

  /** After closing, a non-touch device gets its focus back on the trigger button once the
      100 ms callback runs; a touch device schedules nothing that moves the focus. */
  lemma RefocusAfterClose(s: ModalState, page: Page, h: int)
    requires s.bound
    ensures var c := Step(s, page, CloseActivated);
            !page.isTouch ==>
              c.pending[|c.pending| - 1] == RefocusTrigger
              && Fired(c, page, |c.pending| - 1, h).focus == TriggerButton
    ensures var c := Step(s, page, CloseActivated);
            page.isTouch ==> c.pending == s.pending && c.focus == s.focus
  {
  }

  /** Rotating a device while the modal is open: 500 ms later the content is scrolled to the
      top and stretched to the window height, and on the next frame the stretch is dropped
      again, leaving nothing pending. */
  lemma RotationScenario(s: ModalState, page: Page, h: int)
    requires s.bound && s.active && page.hasContent && s.pending == []
    ensures var rotated := Step(s, page, OrientationChanged);
            var adjusted := Fired(rotated, page, 0, h);
            var cleared := Fired(adjusted, page, 0, h);
            && rotated.pending == [AdjustAfterRotation]
            && adjusted.contentScrollTop == 0.0 && adjusted.minHeight == Some(h)
            && adjusted.pending == [ClearMinHeight]
            && cleared.minHeight == None && cleared.contentScrollTop == 0.0 && cleared.pending == []
  {
    var rotated := Step(s, page, OrientationChanged);
    assert Without(rotated.pending, 0) == [];
    var adjusted := Fired(rotated, page, 0, h);
    assert Without(adjusted.pending, 0) == [];
  }

  /** Sharing from a desktop browser with a working clipboard API: the button confirms the
      copy and is disabled, the clipboard holds the announcement and URL, and once the
      2000 ms callback runs the original label is back and the button enabled. */
  lemma CopySuccessScenario(s: ModalState, page: Page, p: Platform, o: Outcomes, h: int)
    requires Inv(s, page) && s.bound && !s.shareDisabled && !page.isTouch
    requires p.hasClipboardApi && p.isSecureContext && !o.clipboardRejects
    ensures var r := Step(s, page, ShareClicked(p, o));
            && r.shareHtml == SuccessHtml && r.shareSuccess && r.shareDisabled
            && r.clipboard == Some(FullShareText(p.url))
            && var back := Fired(r, page, |s.pending|, h);
               back.shareHtml == s.shareHtml && !back.shareSuccess && !back.shareDisabled
               && back.pending == s.pending
  {
    var r := Step(s, page, ShareClicked(p, o));
    assert r.pending == s.pending + [RestoreAfterSuccess(s.shareHtml)];
    assert Without(r.pending, |s.pending|) == s.pending;
  }

  /** While the success feedback is shown the button is disabled, so further clicks change
      nothing. */
  lemma DisabledShareIgnored(s: ModalState, page: Page, p: Platform, o: Outcomes)
    requires Inv(s, page) && s.shareSuccess
    ensures Step(s, page, ShareClicked(p, o)) == s
  {
  }

  /** The error feedback does not disable the button: two failed copies within 2000 ms
      leave the error label in place for good, because the second one saves the error label
      as the one to restore. */
  lemma RepeatedErrorKeepsErrorLabel(s: ModalState, page: Page, p: Platform, o: Outcomes, h: int)
    requires Inv(s, page) && s.bound && !s.shareDisabled && s.pending == []
    requires s.shareHtml != ErrorHtml
    requires !(p.hasNativeShare && page.isTouch)
    requires !(p.hasClipboardApi && p.isSecureContext && !o.clipboardRejects) && o.exec != Copied
    ensures var once := Step(s, page, ShareClicked(p, o));
            var twice := Step(once, page, ShareClicked(p, o));
            var first := Fired(twice, page, 0, h);
            var second := Fired(first, page, 0, h);
            && twice.pending == [RestoreAfterError(s.shareHtml), RestoreAfterError(ErrorHtml)]
            && first.shareHtml == s.shareHtml
            && second.shareHtml == ErrorHtml && second.pending == []
  {
    var once := Step(s, page, ShareClicked(p, o));
    assert once.pending == [RestoreAfterError(s.shareHtml)];
    var twice := Step(once, page, ShareClicked(p, o));
    assert twice.pending == [RestoreAfterError(s.shareHtml), RestoreAfterError(ErrorHtml)];
    assert Without(twice.pending, 0) == [RestoreAfterError(ErrorHtml)];
  }

  class ModalManager {
    const page: Page
    const cursor: Cursor.CustomCursor?
    var bound: bool
    var active: bool
    var overflow: string
    var focus: Focus
    var contentScrollTop: real
    var minHeight: Option<int>
    var shareHtml: string
    var shareSuccess: bool
    var shareDisabled: bool
    var clipboard: Option<string>
    var copyAreas: nat
    var pending: seq<Deferred>

    function Model(): ModalState
      reads this
    {
      ModalState(bound, active, overflow, focus, contentScrollTop, minHeight, shareHtml,
                 shareSuccess, shareDisabled, clipboard, copyAreas, pending)
    }

    ghost predicate Valid()
      reads this, cursor
    {
      && Inv(Model(), page)
      && (page.hasCursor <==> cursor != null)
      && (cursor != null ==> cursor.Valid())
    }

    /** `cursor` is `window.customCursor` (null when none was installed); `shareHtml0` and
        `scrollTop0` are what the page shows before the script runs. */
    constructor (hasTrigger: bool, hasModal: bool, hasClose: bool, hasShare: bool, hasContent: bool,
                 hasOnTouchStart: bool, maxTouchPoints: int, cursor: Cursor.CustomCursor?,
                 shareHtml0: string, scrollTop0: real)
      requires cursor != null ==> cursor.Valid()
      ensures page == Page(hasTrigger, hasModal, hasClose, hasShare, hasContent,
                           IsTouchDevice(hasOnTouchStart, maxTouchPoints), cursor != null)
      ensures this.cursor == cursor
      ensures Model() == Initial(page, shareHtml0, scrollTop0) && Valid()
    {
      page := Page(hasTrigger, hasModal, hasClose, hasShare, hasContent,
                   IsTouchDevice(hasOnTouchStart, maxTouchPoints), cursor != null);
      this.cursor := cursor;
      bound := hasTrigger && hasModal && hasClose && hasShare;
      active, overflow, focus := false, "", Body;
      contentScrollTop, minHeight := scrollTop0, None;
      shareHtml, shareSuccess, shareDisabled := shareHtml0, false, false;
      clipboard, copyAreas, pending := None, 0, [];
      new;
      InitialInv(page, shareHtml0, scrollTop0);
    }

    method PreventBodyScroll(prevent: bool)
      modifies this
      ensures Model() == ScrollPrevented(old(Model()), prevent)
    {
      overflow := if prevent then ScrollLocked else "";
    }

    method OpenModal()
      modifies this
      ensures Model() == Opened(old(Model()), page)
    {
      active := true;
      PreventBodyScroll(true);
      if page.hasCursor && !page.isTouch {
        pending := pending + [RefreshCursor];
      }
      pending := pending + [SettleAfterOpen];
    }

    method CloseModal()
      modifies this
      ensures Model() == Closed(old(Model()), page)
    {
      active := false;
      PreventBodyScroll(false);
      if page.hasCursor && !page.isTouch {
        pending := pending + [RefreshCursor];
      }
      if !page.isTouch {
        pending := pending + [RefocusTrigger];
      }
    }

    method ShowSuccessMessage()
      modifies this
      ensures Model() == SuccessShown(old(Model()))
    {
      var originalHtml := shareHtml;
      shareHtml := SuccessHtml;
      shareSuccess := true;
      shareDisabled := true;
      pending := pending + [RestoreAfterSuccess(originalHtml)];
    }

    method ShowErrorMessage()
      modifies this
      ensures Model() == ErrorShown(old(Model()))
    {
      var originalHtml := shareHtml;
      shareHtml := ErrorHtml;
      pending := pending + [RestoreAfterError(originalHtml)];
    }

    method FallbackCopy(text: string, exec: ExecOutcome)
      modifies this
      ensures Model() == FallbackCopied(old(Model()), text, exec)
    {
      copyAreas := copyAreas + 1;
      focus := CopyArea;
      match exec {
        case Copied =>
          clipboard := Some(text);
          ShowSuccessMessage();
        case Refused =>
          ShowErrorMessage();
        case Threw =>
          ShowErrorMessage();
      }
      copyAreas := copyAreas - 1;
      focus := Body;
    }

    method CopyToClipboard(text: string, p: Platform, o: Outcomes)
      modifies this
      ensures Model() == ClipboardCopied(old(Model()), text, p, o)
    {
      if p.hasClipboardApi && p.isSecureContext {
        if !o.clipboardRejects {
          clipboard := Some(text);
          ShowSuccessMessage();
        } else {
          FallbackCopy(text, o.exec);
        }
      } else {
        FallbackCopy(text, o.exec);
      }
    }

    method HandleShare(p: Platform, o: Outcomes)
      modifies this
      ensures Model() == Shared(old(Model()), page, p, o)
    {
      var fullShareText := ShareText + " " + p.url;
      if p.hasNativeShare && page.isTouch {
        if o.nativeShareRejects {
          CopyToClipboard(fullShareText, p, o);
        }
      } else {
        CopyToClipboard(fullShareText, p, o);
      }
    }

    method HandleOrientationChange()
      modifies this
      ensures Model() == Rotated(old(Model()))
    {
      if active {
        pending := pending + [AdjustAfterRotation];
      }
    }

    method HandleResize()
      modifies this
      ensures Model() == Resized(old(Model()), page)
    {
      if active && page.isTouch && page.hasContent {
        pending := pending + [StretchMinHeight];
      }
    }

    method OnTriggerActivate()
      requires Valid()
      modifies this
      ensures Valid() && Model() == Step(old(Model()), page, TriggerActivated)
    {
      StepInv(Model(), page, TriggerActivated);
      if bound {
        OpenModal();
      }
    }

    method OnCloseActivate()
      requires Valid()
      modifies this
      ensures Valid() && Model() == Step(old(Model()), page, CloseActivated)
    {
      StepInv(Model(), page, CloseActivated);
      if bound {
        CloseModal();
      }
    }

    method OnModalClick(onOverlay: bool)
      requires Valid()
      modifies this
      ensures Valid() && Model() == Step(old(Model()), page, ModalClicked(onOverlay))
    {
      StepInv(Model(), page, ModalClicked(onOverlay));
      if bound && onOverlay {
        CloseModal();
      }
    }

    method OnKeyDown(key: string)
      requires Valid()
      modifies this
      ensures Valid() && Model() == Step(old(Model()), page, KeyDown(key))
    {
      StepInv(Model(), page, KeyDown(key));
      if bound && active && key == EscapeKey {
        CloseModal();
      }
    }

    method OnShareClick(p: Platform, o: Outcomes)
      requires Valid()
      modifies this
      ensures Valid() && Model() == Step(old(Model()), page, ShareClicked(p, o))
    {
      StepInv(Model(), page, ShareClicked(p, o));
      if bound && !shareDisabled {
        HandleShare(p, o);
      }
    }

    method OnOrientationChange()
      requires Valid()
      modifies this
      ensures Valid() && Model() == Step(old(Model()), page, OrientationChanged)
    {
      StepInv(Model(), page, OrientationChanged);
      if bound {
        HandleOrientationChange();
      }
    }

    method OnResize()
      requires Valid()
      modifies this
      ensures Valid() && Model() == Step(old(Model()), page, WindowResized)
    {
      StepInv(Model(), page, WindowResized);
      if bound {
        HandleResize();
      }
    }

    /** Runs pending callback `i`; the cursor refresh acts on the installed custom cursor. */
    method FireTimer(i: nat, innerHeight: int)
      requires Valid()
      modifies this, cursor
      ensures Valid() && Model() == Step(old(Model()), page, TimerFired(i, innerHeight))
      ensures cursor != null && i < |old(pending)| && old(pending)[i] == RefreshCursor ==>
                cursor.Model() == Cursor.Rescanned(old(cursor.Model()), cursor.el)
      ensures cursor != null && !(i < |old(pending)| && old(pending)[i] == RefreshCursor) ==>
                cursor.Model() == old(cursor.Model())
    {
      StepInv(Model(), page, TimerFired(i, innerHeight));
      if i >= |pending| {
        return;
      }
      var d := pending[i];
      assert Schedulable(d, page);
      pending := Without(pending, i);
      if d == RefreshCursor {
        var _ := cursor.Refresh();
      } else {
        RunCallback(d, innerHeight);
      }
    }

    /** The body of every callback except the cursor refresh. */
    method RunCallback(d: Deferred, innerHeight: int)
      requires d != RefreshCursor
      modifies this
      ensures Model() == Ran(old(Model()), page, d, innerHeight)
    {
      match d {
        case SettleAfterOpen =>
          if page.isTouch {
            if page.hasContent {
              contentScrollTop := 0.0;
            }
          } else {
            focus := CloseButton;
          }
        case RefocusTrigger =>
          focus := TriggerButton;
        case RestoreAfterSuccess(html) =>
          shareHtml, shareSuccess, shareDisabled := html, false, false;
        case RestoreAfterError(html) =>
          shareHtml := html;
        case AdjustAfterRotation =>
          if page.hasContent {
            contentScrollTop := 0.0;
            minHeight := Some(innerHeight);
            pending := pending + [ClearMinHeight];
          }
        case ClearMinHeight =>
          minHeight := None;
        case StretchMinHeight =>
          minHeight := Some(innerHeight);
      }
    }
  }
}
