/**
 * The background music widget: a play/pause button whose glyph and `playing` class follow
 * the `isPlaying` flag, a clickable progress bar that seeks, a volume slider, and a
 * progress fill redrawn on every `timeupdate` of the audio element.
 */
module Music {
  import opened Wrappers

  /** `audio.duration`: NaN (here `Unknown`) until the media metadata is known. */
  datatype Duration = Unknown | Seconds(value: real)

  /** JavaScript truthiness of the duration: neither NaN nor zero. */
  predicate Truthy(d: Duration)
  {
    d.Seconds? && d.value != 0.0
  }

  /** Which of `#audioPlayer`, `#playBtn`, `.progress-bar`, `.volume-slider` and
      `.progress-fill` the page contains. */
  datatype Elements = Elements(hasAudio: bool, hasPlayBtn: bool, hasBar: bool, hasSlider: bool, hasFill: bool)

  const PlayGlyph: string := "▶"
  const PauseGlyph: string := "⏸"
  /** The volume of a media element nobody has set. */
  const DefaultVolume: real := 1.0
  const StartVolume: real := 0.1
  const StartSlider: int := 10

  datatype PlayerState = PlayerState(
    playBound: bool,     // click listener on the play button
    seekBound: bool,     // click listener on the progress bar
    volumeBound: bool,   // input listener on the volume slider
    timeBound: bool,     // timeupdate listener on the audio element
    initThrew: bool,     // init stopped with an uncaught TypeError
    isPlaying: bool,
    audioPlaying: bool,  // the audio element is actually playing
    glyph: string,       // text of the play button
    playingClass: bool,  // `playing` in the class list of the play button
    volume: real,        // audio.volume
    slider: int,         // value of the volume slider
    currentTime: real,   // audio.currentTime
    duration: Duration,  // audio.duration
    fill: Option<real>)  // width of the progress fill in percent; None while unset

  /** The state after `new MusicPlayer()`. Without the audio element init returns at once.
      Otherwise the listeners are bound in the order play button, progress bar, slider,
      audio; the first missing one throws a TypeError that ends init, so the start volume
      and slider value are written only when all of them exist. */
  function Initial(el: Elements, glyph0: string, slider0: int, duration0: Duration): (s: PlayerState)
    ensures !s.isPlaying && !s.audioPlaying && !s.playingClass && s.glyph == glyph0
    ensures !el.hasAudio ==> !s.playBound && !s.seekBound && !s.volumeBound && !s.timeBound && !s.initThrew
    ensures el.hasAudio && !el.hasPlayBtn ==> !s.playBound && !s.seekBound && !s.volumeBound && !s.timeBound && s.initThrew
    ensures el.hasAudio ==>
              && s.playBound == el.hasPlayBtn
              && s.seekBound == (el.hasPlayBtn && el.hasBar)
              && s.volumeBound == (el.hasPlayBtn && el.hasBar && el.hasSlider)
              && s.timeBound == s.volumeBound
    ensures s.initThrew <==> el.hasAudio && !(el.hasPlayBtn && el.hasBar && el.hasSlider)
    ensures (s.volume == StartVolume && s.slider == StartSlider) || (s.volume == DefaultVolume && s.slider == slider0)
    ensures s.volume == StartVolume <==> el.hasAudio && !s.initThrew
    ensures el.hasAudio && !s.initThrew ==> s.volume * 100.0 == s.slider as real
    ensures s.fill == None && s.currentTime == 0.0 && s.duration == duration0
  {
    var blank := PlayerState(false, false, false, false, false, false, false, glyph0, false,
                             DefaultVolume, slider0, 0.0, duration0, None);
    if !el.hasAudio then blank
    else
      var complete := el.hasPlayBtn && el.hasBar && el.hasSlider;
      blank.(playBound := el.hasPlayBtn,
             seekBound := el.hasPlayBtn && el.hasBar,
             volumeBound := complete,
             timeBound := complete,
             initThrew := !complete,
             volume := if complete then StartVolume else DefaultVolume,
             slider := if complete then StartSlider else slider0)
  }

  /** The button glyph and class that go with a playing flag. */
  predicate Lockstep(s: PlayerState)
  {
    s.glyph == (if s.isPlaying then PauseGlyph else PlayGlyph) && s.playingClass == s.isPlaying
  }

  /** `togglePlay`: pause, or start playback, and flip `isPlaying`. A rejected `play()`
      promise (`playAllowed` false) is only logged, so the flag still becomes true. */
  function Toggled(s: PlayerState, playAllowed: bool): (r: PlayerState)
    ensures r.isPlaying == !s.isPlaying
    ensures Lockstep(r)
    ensures r.audioPlaying <==> r.isPlaying && (playAllowed || s.audioPlaying)
    ensures r.(isPlaying := s.isPlaying, audioPlaying := s.audioPlaying, glyph := s.glyph,
               playingClass := s.playingClass) == s
  {
    if s.isPlaying then
      s.(audioPlaying := false, glyph := PlayGlyph, playingClass := false, isPlaying := false)
    else
      s.(audioPlaying := playAllowed || s.audioPlaying, glyph := PauseGlyph, playingClass := true,
         isPlaying := true)
  }

  /** Click on the progress bar at `clientX` over a bar starting at `left` of width `width`:
      `currentTime` becomes `duration * (clickX / width)`. A NaN duration or a zero width
      yields a non-finite time, whose assignment throws and changes nothing. */
  function Seek(s: PlayerState, clientX: real, left: real, width: real): (r: PlayerState)
    ensures s.duration.Seconds? && width != 0.0 ==>
              r.currentTime * width == s.duration.value * (clientX - left)
    ensures s.duration.Unknown? || width == 0.0 ==> r == s
    ensures r.(currentTime := s.currentTime) == s
  {
    if s.duration.Unknown? || width == 0.0 then s
    else s.(currentTime := s.duration.value * ((clientX - left) / width))
  }

  /** The slider's `input` listener: volume = value / 100. A value outside 0..100 makes the
      assignment throw, leaving the volume as it was. */
  function VolumeFromSlider(s: PlayerState, value: int): (r: PlayerState)
    ensures 0 <= value <= 100 ==> r.volume * 100.0 == value as real
    ensures !(0 <= value <= 100) ==> r == s
    ensures r.(volume := s.volume) == s
  {
    if 0 <= value <= 100 then s.(volume := value as real / 100.0) else s
  }

  /** `updateProgress`: with a truthy duration the fill shows currentTime / duration in
      percent; otherwise (NaN or 0) it is left untouched. A missing fill element throws. */
  function Progressed(s: PlayerState, el: Elements): (r: PlayerState)
    ensures Truthy(s.duration) && el.hasFill ==>
              r.fill.Some? && r.fill.value * s.duration.value == s.currentTime * 100.0
    ensures !Truthy(s.duration) || !el.hasFill ==> r == s
    ensures r.(fill := s.fill) == s
  {
    if Truthy(s.duration) && el.hasFill then
      s.(fill := Some(s.currentTime / s.duration.value * 100.0))
    else s
  }

  /** The inputs the widget reacts to. */
  datatype Event =
    | PlayClick(playAllowed: bool)                 // playAllowed: the play() promise resolves
    | BarClick(clientX: real, left: real, width: real)
    | SliderInput(value: int)                      // the user moved the slider to `value`
    | TimeUpdate(time: real, duration: Duration)   // the element's own playback progress
    | DurationChange(duration: Duration)           // the element loaded metadata; no listener runs
    | Ended                                        // the track played to its end; no listener runs

  function Step(s: PlayerState, el: Elements, e: Event): PlayerState
  {
    match e
    case PlayClick(ok) => if s.playBound then Toggled(s, ok) else s
    case BarClick(x, left, w) => if s.seekBound then Seek(s, x, left, w) else s
    case SliderInput(v) =>
      var moved := s.(slider := v);
      if s.volumeBound then VolumeFromSlider(moved, v) else moved
    case TimeUpdate(t, d) =>
      var advanced := s.(currentTime := t, duration := d);
      if s.timeBound then Progressed(advanced, el) else advanced
    case DurationChange(d) => s.(duration := d)
    case Ended => s.(audioPlaying := false)
  }

  function Run(s: PlayerState, el: Elements, evs: seq<Event>): PlayerState
    decreases |evs|
  {
    if evs == [] then s else Run(Step(s, el, evs[0]), el, evs[1..])
  }

  /** What holds of every state the widget can reach. */
  ghost predicate Inv(s: PlayerState, el: Elements)
  {
    && 0.0 <= s.volume <= 1.0
    && (s.playBound ==> el.hasAudio && el.hasPlayBtn)
    && (s.seekBound ==> s.playBound && el.hasBar)
    && (s.volumeBound ==> s.seekBound && el.hasSlider)
    && (s.timeBound <==> s.volumeBound)
    && (s.isPlaying ==> s.playBound && s.glyph == PauseGlyph)
    && (s.playingClass <==> s.isPlaying)
    && (s.audioPlaying ==> s.isPlaying)
  }

  lemma InitialInv(el: Elements, glyph0: string, slider0: int, duration0: Duration)
    ensures Inv(Initial(el, glyph0, slider0, duration0), el)
  {
  }

  lemma StepInv(s: PlayerState, el: Elements, e: Event)
    requires Inv(s, el)
    ensures Inv(Step(s, el, e), el)
  {
  }

  /** The invariant holds after any sequence of events: in particular the volume stays
      within 0..1 and the audio plays only while the button shows the pause glyph. */
  lemma {:induction false} RunInv(s: PlayerState, el: Elements, evs: seq<Event>)
    requires Inv(s, el)
    ensures Inv(Run(s, el, evs), el)
    decreases |evs|
  {
    if evs != [] {
      StepInv(s, el, evs[0]);
      RunInv(Step(s, el, evs[0]), el, evs[1..]);
    }
  }

  /** Two toggles restore the flag, glyph and class of a state in lockstep. */
  lemma ToggleTwiceRestores(s: PlayerState, first: bool, second: bool)
    requires Lockstep(s)
    ensures var r := Toggled(Toggled(s, first), second);
            r.(audioPlaying := s.audioPlaying) == s
  {
  }

  /** A click whose play() is refused by the autoplay policy still shows "playing". */
  lemma RefusedPlayStillShowsPlaying(s: PlayerState, el: Elements)
    requires Inv(s, el) && s.playBound && !s.isPlaying
    ensures var r := Step(s, el, PlayClick(false));
            r.isPlaying && r.glyph == PauseGlyph && r.playingClass && !r.audioPlaying
  {
  }

  /** A click inside the bar of a track with a non-negative duration seeks to a position
      between the start and the end of the track. */
  lemma SeekStaysInTrack(s: PlayerState, clientX: real, left: real, width: real)
    requires s.duration.Seconds? && s.duration.value >= 0.0
    requires width > 0.0 && left <= clientX <= left + width
    ensures var r := Seek(s, clientX, left, width);
            0.0 <= r.currentTime <= s.duration.value
  {
    var d, f := s.duration.value, (clientX - left) / width;
    assert 0.0 <= f <= 1.0;
    assert d * f <= d * 1.0;
  }

  /** A paused player seeks by the duration the element knows at click time: once the
      metadata of a 200-second track has loaded, with no `timeupdate` since, a click in the
      middle of the bar seeks to 100 seconds. */
  lemma SeekAfterMetadataScenario(glyph0: string, slider0: int)
    ensures var el := Elements(true, true, true, true, true);
            var s := Initial(el, glyph0, slider0, Unknown);
            var loaded := Step(s, el, DurationChange(Seconds(200.0)));
            Step(loaded, el, BarClick(150.0, 50.0, 200.0)).currentTime == 100.0
  {
  }

  /** When the track ends by itself no listener runs: the audio stops while the button
      still shows the pause glyph and `isPlaying` stays set. */
  lemma EndedTrackStillShowsPause(s: PlayerState, el: Elements)
    requires Inv(s, el) && s.isPlaying
    ensures var r := Step(s, el, Ended);
            !r.audioPlaying && r.isPlaying && r.glyph == PauseGlyph && r.playingClass && Inv(r, el)
  {
  }

  /** Clicking the middle of the bar of a 200-second track seeks to 100 seconds. */
  lemma SeekHalfwayScenario(s: PlayerState)
    requires s.duration == Seconds(200.0)
    ensures Seek(s, 150.0, 50.0, 200.0).currentTime == 100.0
  {
  }

  /** Slider values 0..100 give volumes 0..1. */
  lemma SliderVolumeRange(s: PlayerState, value: int)
    requires 0 <= value <= 100
    ensures 0.0 <= VolumeFromSlider(s, value).volume <= 1.0
  {
  }

  /** A position within the track shows a fill between 0 and 100 percent. */
  lemma FillWithinBar(s: PlayerState, el: Elements)
    requires s.duration.Seconds? && s.duration.value > 0.0 && el.hasFill
    requires 0.0 <= s.currentTime <= s.duration.value
    ensures var r := Progressed(s, el);
            r.fill.Some? && 0.0 <= r.fill.value <= 100.0
  {
    var d, t := s.duration.value, s.currentTime;
    assert 0.0 <= t / d <= 1.0;
  }

  class MusicPlayer {
    const el: Elements
    var playBound: bool
    var seekBound: bool
    var volumeBound: bool
    var timeBound: bool
    var initThrew: bool
    var isPlaying: bool
    var audioPlaying: bool
    var glyph: string
    var playingClass: bool
    var volume: real
    var slider: int
    var currentTime: real
    var duration: Duration
    var fill: Option<real>

    function Model(): PlayerState
      reads this
    {
      PlayerState(playBound, seekBound, volumeBound, timeBound, initThrew, isPlaying, audioPlaying,
                  glyph, playingClass, volume, slider, currentTime, duration, fill)
    }

    ghost predicate Valid()
      reads this
    {
      Inv(Model(), el)
    }

    /** `glyph0`, `slider0` and `duration0` are what the page's markup and the audio
        element hold before the script runs. */
    constructor (el: Elements, glyph0: string, slider0: int, duration0: Duration)
      ensures this.el == el && Model() == Initial(el, glyph0, slider0, duration0) && Valid()
    {
      this.el := el;
      playBound, seekBound, volumeBound, timeBound, initThrew := false, false, false, false, false;
      isPlaying, audioPlaying := false, false;
      glyph, playingClass := glyph0, false;
      volume, slider := DefaultVolume, slider0;
      currentTime, duration, fill := 0.0, duration0, None;
      new;
      InitialInv(el, glyph0, slider0, duration0);
      if !el.hasAudio {
        return;
      }
      if !el.hasPlayBtn {
        initThrew := true;
        return;
      }
      playBound := true;
      if !el.hasBar {
        initThrew := true;
        return;
      }
      seekBound := true;
      if !el.hasSlider {
        initThrew := true;
        return;
      }
      volumeBound, timeBound := true, true;
      volume, slider := StartVolume, StartSlider;
    }

    method TogglePlay(playAllowed: bool)
      requires Valid() && playBound
      modifies this
      ensures Valid() && Model() == Toggled(old(Model()), playAllowed)
    {
      if isPlaying {
        audioPlaying := false;
        glyph := PlayGlyph;
        playingClass := false;
      } else {
        audioPlaying := playAllowed || audioPlaying;
        glyph := PauseGlyph;
        playingClass := true;
      }
      isPlaying := !isPlaying;
    }

    method OnPlayClick(playAllowed: bool)
      requires Valid()
      modifies this
      ensures Valid() && Model() == Step(old(Model()), el, PlayClick(playAllowed))
    {
      if playBound {
        TogglePlay(playAllowed);
      }
    }

    method OnBarClick(clientX: real, left: real, width: real)
      requires Valid()
      modifies this
      ensures Valid() && Model() == Step(old(Model()), el, BarClick(clientX, left, width))
    {
      if seekBound && duration.Seconds? && width != 0.0 {
        var clickX := clientX - left;
        var percentage := clickX / width;
        currentTime := duration.value * percentage;
      }
    }

    method OnSliderInput(value: int)
      requires Valid()
      modifies this
      ensures Valid() && Model() == Step(old(Model()), el, SliderInput(value))
    {
      slider := value;
      if volumeBound && 0 <= value <= 100 {
        volume := value as real / 100.0;
      }
    }

    method UpdateProgress()
      requires Valid()
      modifies this
      ensures Valid() && Model() == Progressed(old(Model()), el)
    {
      if Truthy(duration) && el.hasFill {
        var percentage := currentTime / duration.value * 100.0;
        fill := Some(percentage);
      }
    }

    method OnTimeUpdate(time: real, newDuration: Duration)
      requires Valid()
      modifies this
      ensures Valid() && Model() == Step(old(Model()), el, TimeUpdate(time, newDuration))
    {
      currentTime, duration := time, newDuration;
      if timeBound {
        UpdateProgress();
      }
    }

    /** The browser learns the track's duration (loadedmetadata, durationchange). */
    method OnDurationChange(newDuration: Duration)
      requires Valid()
      modifies this
      ensures Valid() && Model() == Step(old(Model()), el, DurationChange(newDuration))
    {
      duration := newDuration;
    }

    /** The browser stops the audio at the end of the track. */
    method OnEnded()
      requires Valid()
      modifies this
      ensures Valid() && Model() == Step(old(Model()), el, Ended)
    {
      audioPlaying := false;
    }
  }
}
