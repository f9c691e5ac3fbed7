# Portfolio page components, modelled in Dafny

This project models the four interactive components of a one-page portfolio site. Each one
is an event-driven object that reads a few DOM elements once and then reacts to listeners
and timers:

- **CustomCursor** (`cursor.dfy`, module `Cursor`). A two-part mouse cursor. The inner mark
  jumps to the pointer at once. The outer mark covers 15 % of the remaining gap on every
  animation frame and stops once it is within 0.5 px on both axes. The component also
  keeps the `cursor-click` and `cursor-hover` classes and the opacity of the cursor.
  `refresh`, `hide` and `show` are its public calls.
- **MusicPlayer** (`music_player.dfy`, module `Music`). A play/pause button whose glyph
  (▶/⏸) and `playing` class follow an `isPlaying` flag. It also has a progress bar that
  seeks to the clicked fraction, a 0..100 volume slider (start value 10, volume 0.1) and a
  progress fill redrawn on every `timeupdate`.
- **ThemeToggle** (`theme_toggle.dfy`, module `Theme`). The light/dark theme.
  - The start theme is the `portfolio-theme` entry of local storage, or `dark`.
  - The theme is shown by the body's `light-theme` class, the sun/moon icon, the
    `theme-color` meta tag and four fixed header colour pairs. The header pair depends on
    whether the page is scrolled past 100 px.
  - A toggle persists the new theme.
  - The system colour scheme is followed only while nothing is stored.
- **ModalManager** (`modal.dfy`, module `Modal`). The certificate modal.
  - It opens from the trigger button and closes from the close button, a click on the
    overlay itself, or Escape while open. The page scroll is locked while it is open.
  - Focus moves after 300 ms and 100 ms delays, on non-touch devices only.
  - After 100 ms the custom cursor's hover list is refreshed.
  - On orientation changes and resizes it adjusts the content's height.
  - Sharing tries, in this order, the native share sheet (touch devices only), the
    clipboard API, and `execCommand('copy')` on a temporary textarea. The share button
    then shows "Zkopírováno!" or "Chyba" for 2000 ms.

Each component has the same layout:

- A value type (`CursorState`, `PlayerState`, `ThemeState`, `ModalState`) holds the
  component's fields and the part of the DOM it writes.
- Each listener or method is a pure function on that value.
- An `Event` type, a `Step` function and a `Run` fold describe any sequence of inputs.
- An invariant is proved to hold after every sequence of events.
- A `class` with the same fields has one method per listener or source method. Each method
  updates the fields in place and is proved to produce the function's result.

The modal's timer callback that refreshes the custom cursor calls `Cursor.CustomCursor.Refresh`
on the cursor object, as the page does through `window.customCursor`.

The page's own entry script (`script.js`) contains a second copy of the same four
components, which behave the same as the module files. The script's cursor starts its
animation loop before binding its remaining document listeners, and its modal computes the
touch flag only after checking for its elements; neither ordering changes any modelled state.
The script also wires the components together:
- the cursor is created only when the device has hover;
- a window scroll listener recolours the header (modelled as `Theme.Scrolled`). It is
  registered only when the constructors before it returned, so a theme toggle whose
  construction threw never recolours the header;
- the modal is built from local functions instead of a class.

Missing DOM elements are described by an `Elements` (or `Page`) value. A statement that
dereferences a missing element throws a TypeError in JavaScript. The model treats it as
"the rest of that handler does not run", and everything written before it stays written.

Where the components' documented behaviour and the code disagree, the model follows the code:
- A missing `#playBtn` is described as harmless. In the code it throws in `init`, so no
  listener is bound and the volume is never set (`Music.Initial`).
- A `play()` refused by the browser is described as leaving the player "not playing". The
  code only logs the rejection and still sets `isPlaying` and shows ⏸
  (`Music.RefusedPlayStillShowsPlaying`).
- Without a `.theme-icon`, `applyTheme` throws right after setting the body class. `init`
  therefore never registers the click and colour-scheme listeners (`Theme.Initial`).

## Model

| member | source | states |
|---|---|---|
| Cursor.Initial | js/components/cursor.js:3-24 | pointer and outer mark start at 0, visible, not moving; listeners, hover binding and the animation loop exist exactly when `.custom-cursor` exists; otherwise nothing happens |
| Cursor.Moved | js/components/cursor.js:27-36 | a move records the pointer and sets moving; the inner mark goes to the pointer only while visible and present; nothing else changes |
| Cursor.Pressed | js/components/cursor.js:38-42 | `cursor-click` is added exactly when the cursor is visible; nothing else changes |
| Cursor.Released | js/components/cursor.js:44-46 | `cursor-click` is removed whatever the visibility |
| Cursor.Hidden | js/components/cursor.js:48-51 | leaving the document sets opacity "0" and not visible, and nothing else |
| Cursor.Shown | js/components/cursor.js:53-56 | entering the document sets opacity "1" and visible, and nothing else |
| Cursor.HoverOn | js/components/cursor.js:79-83 | `cursor-hover` is added only while visible and once the hover listeners are bound |
| Cursor.HoverOff | js/components/cursor.js:85-87 | `cursor-hover` is removed |
| Cursor.Rescanned | js/components/cursor.js:59-77 | rescanning clears `cursor-hover` and binds the hover listeners; without the cursor element nothing changes |
| Cursor.Frame | js/components/cursor.js:89-104 | while moving and visible, one frame multiplies the gap between pointer and outer mark by 0.85 on both axes; otherwise the frame changes nothing; the loop stops only when `.cursor-outer` is missing |
| Cursor.InitialInv | js/components/cursor.js:3-24 | the constructed cursor satisfies the invariant |
| Cursor.StepInv | js/components/cursor.js:26-118 | every listener, frame and public call keeps the invariant (opacity shows visibility, listeners only after init, positions only on existing marks, outer mark at `outerX/outerY`) |
| Cursor.RunInv | js/components/cursor.js:26-118 | the invariant holds after any sequence of events |
| Cursor.ReachableVisibility | js/components/cursor.js:48-56 | in every reachable state the cursor is visible exactly when its opacity is not "0" |
| Cursor.InnerFollowsLastMove | js/components/cursor.js:27-36 | after pointer moves while visible, the inner mark is exactly at the last move's coordinates (no lag) |
| Cursor.FrameNeverIncreasesDistance | js/components/cursor.js:89-101 | a frame never moves the outer mark away from the pointer and strictly closes a remaining gap |
| Cursor.IdleFramesChangeNothing | js/components/cursor.js:89-104 | once stopped or hidden, any number of frames leaves the whole state unchanged |
| Cursor.CustomCursor.constructor | js/components/cursor.js:3-24 | the object's state is `Initial` and valid |
| Cursor.CustomCursor.OnMouseMove | js/components/cursor.js:27-36 | the fields become `Moved` of the old state; the invariant is kept |
| Cursor.CustomCursor.OnMouseDown | js/components/cursor.js:38-42 | the fields become `Pressed` of the old state |
| Cursor.CustomCursor.OnMouseUp | js/components/cursor.js:44-46 | the fields become `Released` of the old state |
| Cursor.CustomCursor.OnMouseLeave | js/components/cursor.js:48-51 | the fields become the document-leave step of the old state |
| Cursor.CustomCursor.OnMouseEnter | js/components/cursor.js:53-56 | the fields become the document-enter step of the old state |
| Cursor.CustomCursor.UpdateHoverElements | js/components/cursor.js:59-77 | the fields become `Rescanned` of the old state |
| Cursor.CustomCursor.HandleMouseEnter | js/components/cursor.js:79-83 | the fields become `HoverOn` of the old state |
| Cursor.CustomCursor.HandleMouseLeave | js/components/cursor.js:85-87 | the fields become `HoverOff` of the old state |
| Cursor.CustomCursor.AnimateOuterCursor | js/components/cursor.js:89-104 | the fields become `Frame` of the old state |
| Cursor.CustomCursor.Refresh | js/components/cursor.js:106-108 | the fields become `Rescanned` of the old state; it completes exactly when the cursor element exists |
| Cursor.CustomCursor.Hide | js/components/cursor.js:110-113 | opacity "0" and hidden when the cursor element exists; it throws (changing nothing) otherwise |
| Cursor.CustomCursor.Show | js/components/cursor.js:115-118 | opacity "1" and visible when the cursor element exists; it throws (changing nothing) otherwise |
| Music.Initial | components/music-player.js:3-20 | without audio nothing is bound; otherwise the play, bar, slider and time listeners are bound exactly as far as the elements exist in that order, the first missing one throwing; volume 0.1 and slider 10 (which agree) are set exactly when init completes |
| Music.Toggled | components/music-player.js:45-58 | the flag flips, the glyph and `playing` class follow it, and the audio plays only if `play()` resolved |
| Music.Seek | components/music-player.js:27-34 | `currentTime * width == duration * (clientX - left)`; a NaN duration or zero width changes nothing |
| Music.VolumeFromSlider | components/music-player.js:36-38 | `volume * 100 == value` for values 0..100; other values change nothing |
| Music.Progressed | components/music-player.js:60-65 | with a truthy duration the fill is `currentTime / duration` in percent; a NaN or zero duration leaves it |
| Music.InitialInv | components/music-player.js:3-20 | the constructed player satisfies the invariant |
| Music.StepInv | components/music-player.js:22-65 | every event keeps the invariant (volume in 0..1, binding order, glyph and class in lockstep with the flag, audio plays only while the flag is set) |
| Music.RunInv | components/music-player.js:22-65 | the invariant holds after any sequence of events |
| Music.ToggleTwiceRestores | components/music-player.js:45-58 | two toggles restore the flag, glyph and class |
| Music.RefusedPlayStillShowsPlaying | components/music-player.js:51-57 | a refused `play()` leaves the button showing ⏸ and the flag set while the audio is silent |
| Music.SeekStaysInTrack | components/music-player.js:27-34 | a click inside the bar seeks to a time between 0 and the duration |
| Music.SeekHalfwayScenario | components/music-player.js:27-34 | a click in the middle of the bar of a 200 s track seeks to 100 s |
| Music.SliderVolumeRange | components/music-player.js:36-38 | slider values 0..100 give volumes 0..1 |
| Music.SeekAfterMetadataScenario | components/music-player.js:27-34 | a seek uses the duration the element knows at click time: after the metadata of a 200 s track loads, with no `timeupdate`, a mid-bar click seeks to 100 s |
| Music.EndedTrackStillShowsPause | components/music-player.js:22-58 | no listener reacts to the end of the track: the audio stops while `isPlaying`, ⏸ and the `playing` class stay |
| Music.FillWithinBar | components/music-player.js:60-65 | a time within the track gives a fill between 0 % and 100 % |
| Music.MusicPlayer.constructor | components/music-player.js:3-20 | the object's state is `Initial` and valid |
| Music.MusicPlayer.TogglePlay | components/music-player.js:45-58 | the fields become `Toggled` of the old state |
| Music.MusicPlayer.OnPlayClick | components/music-player.js:23-25 | the fields become the play-click step of the old state |
| Music.MusicPlayer.OnBarClick | components/music-player.js:27-34 | the fields become the bar-click step of the old state |
| Music.MusicPlayer.OnSliderInput | components/music-player.js:36-38 | the fields become the slider step of the old state |
| Music.MusicPlayer.UpdateProgress | components/music-player.js:60-65 | the fields become `Progressed` of the old state |
| Music.MusicPlayer.OnTimeUpdate | components/music-player.js:40-42 | the fields become the time-update step of the old state |
| Music.MusicPlayer.OnDurationChange | components/music-player.js:33 | the element's duration changes and nothing else; the invariant is kept |
| Music.MusicPlayer.OnEnded | components/music-player.js:22-58 | the audio stops and nothing else changes; the invariant is kept |
| Theme.StartTheme | js/components/theme-toggle.js:10 | a non-empty stored value is the start theme, otherwise dark; never empty |
| Theme.Flip | js/components/theme-toggle.js:35 | toggling gives light exactly from dark, and dark from anything else |
| Theme.HeaderUpdated | js/components/theme-toggle.js:61-79 | the header shows the colour pair of the scroll position and body class; without a header nothing changes |
| Theme.Applied | js/components/theme-toggle.js:40-59 | the theme is recorded and the body class set; with an icon everything shown agrees with the theme; without one the icon write throws and nothing after it runs; storage is untouched |
| Theme.Toggled | js/components/theme-toggle.js:34-38 | the theme flips, the page shows it and storage holds it; if applying throws nothing is stored |
| Theme.SchemeChanged | js/components/theme-toggle.js:25-31 | the system scheme is applied only while no preference is stored; storage is never written |
| Theme.Scrolled | script.js:370-373 | after a scroll the header shows the colours of the new position |
| Theme.Initial | js/components/theme-toggle.js:3-32 | the start theme comes from storage; listeners are registered exactly when the toggle and icon exist, and then the page shows the theme |
| Theme.InitialInv | js/components/theme-toggle.js:3-32 | the constructed toggle satisfies the invariant |
| Theme.StepInv | js/components/theme-toggle.js:21-79 | every event keeps the invariant (a stored preference is the theme in force; once bound the page shows the theme; a set header is current) |
| Theme.RunInv | js/components/theme-toggle.js:14-79 | the invariant holds after any sequence of events |
| Theme.ThrownInitNeverColoursHeader | script.js:341-373 | when the icon is missing the constructor throws, the scroll listener is never registered, and the header never gets inline colours after any events |
| Theme.ThrownStaysThrown | script.js:341-373 | a toggle whose construction threw stays unbound, and events change nothing but the scroll position |
| Theme.ToggleTwiceRestores | js/components/theme-toggle.js:34-59 | two toggles restore everything shown, leaving the theme stored |
| Theme.ToggleFromUnknownTheme | js/components/theme-toggle.js:35 | an unrecognised stored theme toggles to dark |
| Theme.SchemeIgnoredAfterToggle | js/components/theme-toggle.js:25-38 | after a toggle, system colour-scheme changes change nothing |
| Theme.HeaderColorsDistinct | js/components/theme-toggle.js:69-78 | each combination of scroll position and theme has its own header colours |
| Theme.ThemeToggle.constructor | js/components/theme-toggle.js:3-32 | the object's state is `Initial` and valid |
| Theme.ThemeToggle.UpdateHeaderColors | js/components/theme-toggle.js:61-79 | the fields become `HeaderUpdated` of the old state |
| Theme.ThemeToggle.ApplyTheme | js/components/theme-toggle.js:40-59 | the fields become `Applied` of the old state; it completes exactly when the icon exists |
| Theme.ThemeToggle.Toggle | js/components/theme-toggle.js:34-38 | the fields become `Toggled` of the old state |
| Theme.ThemeToggle.OnToggleClick | js/components/theme-toggle.js:21-23 | the fields become the click step; the invariant is kept |
| Theme.ThemeToggle.OnSchemeChange | js/components/theme-toggle.js:27-31 | the fields become the colour-scheme step; the invariant is kept |
| Theme.ThemeToggle.OnScroll | script.js:370-373 | the fields become the scroll step (the header is recoloured only when construction did not throw); the invariant is kept |
| Modal.FullShareText | components/modal.js:106-108 | the copied text is the announcement, a space, then the URL |
| Modal.Initial | components/modal.js:3-21 | listeners exist exactly when all four elements exist; closed, unlocked, nothing pending |
| Modal.ScrollPrevented | components/modal.js:187-193 | the body overflow is "hidden" exactly when scrolling is prevented; nothing else changes |
| Modal.Opened | components/modal.js:53-78 | open and locked; schedules the cursor refresh (non-touch with a cursor) and the 300 ms settle step; nothing else changes |
| Modal.Closed | components/modal.js:80-100 | closed and unlocked; schedules the cursor refresh, and the refocus exactly on non-touch devices |
| Modal.SuccessShown | components/modal.js:165-176 | confirmation label, `success` class, disabled; the replaced label is scheduled to return |
| Modal.ErrorShown | components/modal.js:178-185 | error label only; the replaced label is scheduled to return |
| Modal.FallbackCopied | components/modal.js:140-163 | the textarea is always removed and focus ends on the body; the clipboard gets the text and success shows exactly when the copy command copied, otherwise the error label |
| Modal.ClipboardCopied | components/modal.js:125-138 | a secure clipboard API that resolves gives success; otherwise the fallback copy runs |
| Modal.Shared | components/modal.js:102-123 | sharing never opens, closes or unlocks the modal and leaves no textarea |
| Modal.AttemptsRouting | components/modal.js:110-163 | iff-rules of the fallback chain: when native share, the clipboard API and the copy command are tried, and when no feedback or an error results |
| Modal.CopyFollowsRoute | components/modal.js:125-163 | the copy step as written equals the feedback table for the clipboard step |
| Modal.ShareFollowsRoute | components/modal.js:102-163 | the nested share handler equals the flat routing table: feedback, clipboard content and focus |
| Modal.Rotated | components/modal.js:195-209 | an orientation change schedules the adjustment only while open |
| Modal.Resized | components/modal.js:211-221 | while open on a touch device a resize schedules stretching exactly when `.modal-content` exists; otherwise it changes nothing; it never changes anything but the pending list |
| Modal.Ran | components/modal.js:53-221 | a timer callback never changes open/closed, the scroll lock or the textareas; the rotation adjustment scrolls the content to the top, sets min-height to the window height and schedules its clearing; the frames clear or set min-height; the restores bring back the saved label (and re-enable after success); the refocus focuses the trigger |
| Modal.Fired | components/modal.js:53-221 | firing removes exactly that callback from the pending list; an absent index changes nothing |
| Modal.InitialInv | components/modal.js:3-21 | the constructed modal satisfies the invariant |
| Modal.OpenedInv | components/modal.js:53-78 | opening keeps the invariant |
| Modal.ClosedInv | components/modal.js:80-100 | closing keeps the invariant |
| Modal.SharedInv | components/modal.js:102-185 | sharing keeps the invariant |
| Modal.RotatedInv | components/modal.js:195-209 | an orientation change keeps the invariant |
| Modal.ResizedInv | components/modal.js:211-221 | a resize keeps the invariant |
| Modal.FiredInv | components/modal.js:53-221 | every timer callback keeps the invariant |
| Modal.StepInv | components/modal.js:23-51 | every event keeps the invariant (locked iff open, no textarea left, `success` iff disabled, only schedulable callbacks, no button focus on touch devices) |
| Modal.RunInv | components/modal.js:23-221 | the invariant holds after any sequence of events |
| Modal.ScrollLockedIffOpen | components/modal.js:53-193 | in every reachable state the scroll is locked exactly while open, no textarea remains, and a touch device never had focus moved to a button |
| Modal.UnboundModalIsInert | components/modal.js:14-17 | when init found an element missing, no sequence of events changes anything |
| Modal.OpenCloseTransitions | components/modal.js:25-43 | only the trigger opens; only the close button, an overlay click and Escape while open close |
| Modal.IgnoredEvents | components/modal.js:31-43 | other keys, Escape while closed and clicks inside the dialog change nothing |
| Modal.SettleAfterOpenEffect | components/modal.js:67-77 | 300 ms after opening, non-touch focuses the close button; touch scrolls the content to the top and keeps focus |
| Modal.RefocusAfterClose | components/modal.js:94-99 | after closing, non-touch gets focus back on the trigger; touch schedules nothing |
| Modal.RotationScenario | components/modal.js:195-209 | a rotation while open scrolls the content to the top and stretches it after 500 ms, and the next frame drops the stretch, leaving nothing pending |
| Modal.CopySuccessScenario | components/modal.js:125-176 | desktop share with a working clipboard: confirmation, disabled button, clipboard holds the text; after 2000 ms the label and button are restored |
| Modal.DisabledShareIgnored | components/modal.js:165-176 | while the success feedback is shown, share clicks change nothing |
| Modal.RepeatedErrorKeepsErrorLabel | components/modal.js:178-185 | two failed copies within 2000 ms leave the error label for good |
| Modal.ModalManager.constructor | components/modal.js:3-21 | the touch flag is computed from the touch probes; the state is `Initial` and valid |
| Modal.ModalManager.PreventBodyScroll | components/modal.js:187-193 | the fields become `ScrollPrevented` of the old state |
| Modal.ModalManager.OpenModal | components/modal.js:53-78 | the fields become `Opened` of the old state |
| Modal.ModalManager.CloseModal | components/modal.js:80-100 | the fields become `Closed` of the old state |
| Modal.ModalManager.ShowSuccessMessage | components/modal.js:165-176 | the fields become `SuccessShown` of the old state |
| Modal.ModalManager.ShowErrorMessage | components/modal.js:178-185 | the fields become `ErrorShown` of the old state |
| Modal.ModalManager.FallbackCopy | components/modal.js:140-163 | the fields become `FallbackCopied` of the old state |
| Modal.ModalManager.CopyToClipboard | components/modal.js:125-138 | the fields become `ClipboardCopied` of the old state |
| Modal.ModalManager.HandleShare | components/modal.js:102-123 | the fields become `Shared` of the old state |
| Modal.ModalManager.HandleOrientationChange | components/modal.js:195-209 | the fields become `Rotated` of the old state |
| Modal.ModalManager.HandleResize | components/modal.js:211-221 | the fields become `Resized` of the old state |
| Modal.ModalManager.OnTriggerActivate | components/modal.js:25-26 | the trigger's click/touchend step; the invariant is kept |
| Modal.ModalManager.OnCloseActivate | components/modal.js:28-29 | the close button's click/touchend step; the invariant is kept |
| Modal.ModalManager.OnModalClick | components/modal.js:32-36 | the overlay click step; the invariant is kept |
| Modal.ModalManager.OnKeyDown | components/modal.js:39-43 | the keydown step; the invariant is kept |
| Modal.ModalManager.OnShareClick | components/modal.js:46 | the share click step; the invariant is kept |
| Modal.ModalManager.OnOrientationChange | components/modal.js:49 | the orientation step; the invariant is kept |
| Modal.ModalManager.OnResize | components/modal.js:50 | the resize step; the invariant is kept |
| Modal.ModalManager.FireTimer | components/modal.js:62-98 | the fields become `Fired` of the old state; a cursor refresh rescans the installed custom cursor, and any other callback leaves the cursor unchanged |
| Modal.ModalManager.RunCallback | components/modal.js:171-221 | the fields become `Ran` of the old state |

## Left out

- ScrollProgress, SectionAnimator, SmoothScroll and the page fade-in in `script.js` are not part of this model.
- Cursor.Frame: the smoothing is computed over exact reals, not IEEE doubles, so rounding in the settle test is not modelled.
- Cursor.Rescanned: which elements match the hover selector, and the duplicate listeners a second scan adds, are not modelled. The bound listeners' `removeEventListener` calls never match, so each scan adds another pair, but every pair sets the same class.
- Music.Toggled: the `pause` and `play` events a user triggers through the browser's own media controls are not modelled; only the end of the track is.
- Music.Seek: the media element's own clamping of `currentTime` to the track is not modelled. Neither is an infinite (streaming) duration.
- Music.Toggled: the promise returned by `play()` is collapsed into its outcome, given as a parameter. The order in which it settles after the click is not modelled.
- Modal.Fired: any pending callback may fire next. The real delays (100, 300, 500 and 2000 ms, and animation frames) that order them are not modelled.
- Modal.Shared: the promises of `navigator.share` and `clipboard.writeText` are collapsed into their outcomes, given as parameters. Further events arriving while one is unresolved are not modelled.
- Modal.SettleAfterOpenEffect: whether the browser actually accepts focus on a hidden element is not modelled; `focus()` always moves focus.
- Console logging, `preventDefault` and the share sheet's title are not modelled, as they change no modelled state. Because `touchend` is cancelled, a tap fires no compatibility `click`, so one tap is one activation event.
- MusicPlayer's constructor in `script.js` runs before the page registers its header scroll listener, so when it throws (audio present but a control missing) that listener is never registered either. The model of the theme does not see the music player and keeps the listener in that case.
- Device and environment probes are parameters: `(hover: hover)`, `ontouchstart`, `maxTouchPoints`, the secure context, the URL, the window height and the stored theme.
