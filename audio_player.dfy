/**
 * The playback controller of `AudioPlayer`: the `isPlaying`, `isLoading`
 * and `isMuted` flags, how `togglePlay`, `toggleMute` and a click on the
 * progress bar change them, and how the `<audio>` element's events do.
 *
 * The element is represented by the fields it exposes to the component:
 * its volume, its position, and whether it has ended. The promise of
 * `play()` is a parameter: it resolves, rejects, or is not returned at all.
 */
module AudioPlayer {
  import opened Wrappers
  import Text
  import Clock

  /** A media time in seconds as the element reports it; JavaScript numbers may also be NaN or +Infinity. */
  datatype MediaTime = NotANumber | Infinite | Finite(seconds: real)

  /** Media positions and durations are never negative. */
  predicate NonNegative(t: MediaTime) {
    t.Finite? ==> t.seconds >= 0.0
  }

  /** JavaScript truthiness of a number: false exactly for 0 and NaN. */
  predicate Truthy(t: MediaTime) {
    t.Infinite? || (t.Finite? && t.seconds != 0.0)
  }

  /** What `audio.play()` does: its promise resolves, it rejects, or no promise is returned. */
  datatype PlayOutcome = Resolves | Rejects | NoPromise

  datatype Effect = Toast(title: string) | OnPlayCalled | OnPauseCalled

  /** Whole minutes of a non-negative time: `Math.floor(time / 60)`. */
  function Minutes(x: real): (m: nat)
    requires x >= 0.0
    ensures 60.0 * m as real <= x < 60.0 * m as real + 60.0
  {
    (x / 60.0).Floor
  }

  /** Whole seconds past the minute: `Math.floor(time % 60)`. */
  function SecondsPart(x: real): (s: nat)
    requires x >= 0.0
    ensures s < 60
  {
    (x - 60.0 * Minutes(x) as real).Floor
  }

  /**
   * `formatTime`: "0:00" for NaN or a non-finite time, otherwise the minutes,
   * a colon and the floored seconds padded to two digits.
   */
  function FormatTime(t: MediaTime): (r: string)
    requires NonNegative(t)
  {
    if !t.Finite? then "0:00"
    else Clock.Decimal(Minutes(t.seconds)) + ":" + Clock.PadTwo(SecondsPart(t.seconds))
  }

  /** Dividing a scaled position by its scale gives the fraction back. */
  lemma ScaleBack(f: real, d: real)
    requires d != 0.0
    ensures (f * d) / d == f
  {
    var q := (f * d) / d;
    assert q * d == f * d;
    assert (q - f) * d == 0.0;
  }

  lemma FloorShift(x: real, k: int)
    ensures (x - k as real).Floor == x.Floor - k
  {
  }

  /**
   * The player's clock agrees with the recorder's: a finite time shows as
   * its floor in whole seconds, and NaN or +Infinity as zero seconds.
   */
  lemma FormatTimeIsWholeSecondClock(t: MediaTime)
    requires NonNegative(t)
    ensures FormatTime(t) == Clock.Format(if t.Finite? then t.seconds.Floor else 0)
  {
    if t.Finite? {
      var x := t.seconds;
      var m := Minutes(x);
      var n := x.Floor;
      FloorShift(x, 60 * m);
      assert SecondsPart(x) == n - 60 * m;
      assert 60 * m <= n < 60 * m + 60;
      assert n / 60 == m && n % 60 == n - 60 * m;
    } else {
      assert Clock.Decimal(0) == "0";
      assert Clock.PadTwo(0) == "00";
    }
  }

  class Player {
    // props
    var audioUrl: Option<string>
    const hasOnPlay: bool
    const hasOnPause: bool
    // React state
    var isPlaying: bool
    var progress: real
    var duration: MediaTime
    var currentTime: real
    const volume: real
    var isMuted: bool
    var isLoading: bool
    // the <audio> element, present exactly while the URL is truthy (`HasElement`)
    var elementVolume: real
    var elementPosition: real
    var elementEnded: bool
    // the log of outside calls
    var effects: seq<Effect>

    ghost predicate Valid()
      reads this
    {
      && 0.0 <= volume <= 1.0
      && 0.0 <= elementVolume <= 1.0
      && currentTime >= 0.0 && elementPosition >= 0.0
      && NonNegative(duration)
    }

    /** The element's volume is what the mute flag says it should be. */
    predicate VolumeMatchesMute()
      reads this
    {
      elementVolume == if isMuted then 0.0 else volume
    }

    /** `{audioUrl && <audio …/>}`: the element exists exactly while the URL is truthy. */
    predicate HasElement()
      reads this
    {
      Text.Truthy(audioUrl)
    }

    constructor (url: Option<string>, onPlay: bool, onPause: bool)
      ensures Valid() && VolumeMatchesMute()
      ensures audioUrl == url && hasOnPlay == onPlay && hasOnPause == onPause
      ensures !isPlaying && !isMuted && !isLoading && volume == 1.0
      ensures progress == 0.0 && currentTime == 0.0 && duration == Finite(0.0)
      ensures effects == []
    {
      audioUrl, hasOnPlay, hasOnPause := url, onPlay, onPause;
      isPlaying, progress, duration, currentTime := false, 0.0, Finite(0.0), 0.0;
      volume, isMuted, isLoading := 1.0, false, false;
      elementVolume, elementPosition, elementEnded := 1.0, 0.0, false;
      effects := [];
    }

    /**
     * The listener effect re-running (a new `audioUrl`, `onPause` or
     * `volume`): it re-applies `volume` to the element, whether or not the
     * player is muted, and resets nothing else.
     */
    method Rebind()
      requires Valid()
      modifies this`elementVolume
      ensures Valid()
      ensures elementVolume == if HasElement() then volume else old(elementVolume)
    {
      if HasElement() {
        elementVolume := volume;
      }
    }

    /**
     * A new `audioUrl` prop. The element loads the new source (position 0,
     * not ended) and the effect re-applies `volume`; `isPlaying`, `progress`,
     * `currentTime`, `duration` and `isMuted` are left as they were.
     */
    method SetSource(url: Option<string>)
      requires Valid()
      modifies this`audioUrl, this`elementVolume, this`elementPosition, this`elementEnded
      ensures Valid()
      ensures audioUrl == url
      ensures Text.Truthy(url) ==> elementVolume == volume
      ensures !Text.Truthy(url) ==> elementVolume == old(elementVolume)
      ensures url != old(audioUrl) ==> elementPosition == 0.0 && !elementEnded
      ensures url == old(audioUrl) ==>
        elementPosition == old(elementPosition) && elementEnded == old(elementEnded)
    {
      if url != audioUrl {
        elementPosition, elementEnded := 0.0, false;
      }
      audioUrl := url;
      Rebind();
    }

    /**
     * `togglePlay`. Without a URL: the "No Audio Available" toast and no
     * state change. Playing: pause, `onPause`. Otherwise: loading, rewind an
     * ended element to 0, then per the outcome of `play()`.
     */
    method TogglePlay(outcome: PlayOutcome)
      requires Valid()
      modifies this
      ensures Valid()
      ensures isMuted == old(isMuted) && elementVolume == old(elementVolume)
      ensures progress == old(progress) && currentTime == old(currentTime) && duration == old(duration)
      ensures audioUrl == old(audioUrl)
      ensures !old(HasElement()) ==>
        && isPlaying == old(isPlaying) && isLoading == old(isLoading)
        && elementPosition == old(elementPosition) && elementEnded == old(elementEnded)
        && effects == old(effects) + [Toast("No Audio Available")]
      ensures old(HasElement()) && old(isPlaying) ==>
        && !isPlaying && isLoading == old(isLoading)
        && elementPosition == old(elementPosition) && elementEnded == old(elementEnded)
        && effects == old(effects) + (if hasOnPause then [OnPauseCalled] else [])
      ensures old(HasElement()) && !old(isPlaying) ==>
        && elementPosition == (if old(elementEnded) then 0.0 else old(elementPosition))
        && !elementEnded
        && match outcome
           case Resolves =>
             isPlaying && !isLoading &&
             effects == old(effects) + (if hasOnPlay then [OnPlayCalled] else [])
           case Rejects =>
             !isPlaying && !isLoading &&
             effects == old(effects) + [Toast("Playback Error")]
           case NoPromise =>
             !isPlaying && isLoading &&
             effects == old(effects)
    {
      if !HasElement() {
        effects := effects + [Toast("No Audio Available")];
        return;
      }
      if isPlaying {
        isPlaying := false;
        if hasOnPause {
          effects := effects + [OnPauseCalled];
        }
      } else {
        isLoading := true;
        if elementEnded {
          elementPosition, elementEnded := 0.0, false;
        }
        match outcome
        case Resolves =>
          isPlaying := true;
          isLoading := false;
          if hasOnPlay {
            effects := effects + [OnPlayCalled];
          }
        case Rejects =>
          isLoading := false;
          effects := effects + [Toast("Playback Error")];
        case NoPromise =>
      }
    }

    /**
     * `toggleMute`: flips `isMuted`, puts 0 or `volume` on the element, and
     * never changes `volume`; afterwards the element volume matches the flag.
     */
    method ToggleMute()
      requires Valid()
      modifies this`isMuted, this`elementVolume
      ensures Valid()
      ensures !HasElement() ==> isMuted == old(isMuted) && elementVolume == old(elementVolume)
      ensures HasElement() ==> isMuted == !old(isMuted) && VolumeMatchesMute()
    {
      if !HasElement() {
        return;
      }
      if isMuted {
        elementVolume := volume;
        isMuted := false;
      } else {
        elementVolume := 0.0;
        isMuted := true;
      }
    }

    /**
     * `handleProgressClick` at `fraction` = clickX / width of the bar. No
     * effect without an element or while `duration` is 0 or NaN; an infinite
     * duration makes the element refuse the non-finite position, which
     * changes nothing either. The element has ended exactly when the new
     * position is the end of the media, so a seek clears `ended` unless it
     * lands on the end.
     */
    method Seek(fraction: real)
      requires Valid() && 0.0 <= fraction <= 1.0
      modifies this`elementPosition, this`elementEnded, this`currentTime, this`progress
      ensures Valid()
      ensures !(HasElement() && duration.Finite? && duration.seconds != 0.0) ==>
        && elementPosition == old(elementPosition) && elementEnded == old(elementEnded)
        && currentTime == old(currentTime) && progress == old(progress)
      ensures HasElement() && duration.Finite? && duration.seconds != 0.0 ==>
        && elementPosition == fraction * duration.seconds && currentTime == elementPosition
        && progress == fraction * 100.0
        && elementEnded == (fraction == 1.0)
    {
      if !HasElement() || !Truthy(duration) || duration.Infinite? {
        return;
      }
      var newTime := fraction * duration.seconds;
      ScaleBack(fraction, duration.seconds);
      elementPosition, elementEnded := newTime, fraction == 1.0;
      currentTime := newTime;
      progress := (newTime / duration.seconds) * 100.0;
    }

    /** `loadstart`: loading begins. */
    method OnLoadStart()
      modifies this`isLoading
      ensures isLoading
    {
      isLoading := true;
    }

    /** `canplay` and `loadeddata`: loading is over; `isPlaying` is untouched. */
    method OnCanPlay()
      modifies this`isLoading
      ensures !isLoading
    {
      isLoading := false;
    }

    /** `loadedmetadata`: a duration that is neither 0 nor NaN is adopted. */
    method OnLoadedMetadata(elementDuration: MediaTime)
      requires Valid() && NonNegative(elementDuration)
      modifies this`duration
      ensures Valid()
      ensures duration == if Truthy(elementDuration) then elementDuration else old(duration)
    {
      if Truthy(elementDuration) {
        duration := elementDuration;
      }
    }

    /**
     * `timeupdate`, reporting the element's live position and duration: the
     * element has advanced to `position`; with a duration that is neither 0
     * nor NaN, the shown time follows it.
     */
    method OnTimeUpdate(position: real, elementDuration: MediaTime)
      requires Valid() && position >= 0.0 && NonNegative(elementDuration)
      modifies this`elementPosition, this`currentTime, this`progress
      ensures Valid()
      ensures elementPosition == position
      ensures !Truthy(elementDuration) ==> currentTime == old(currentTime) && progress == old(progress)
      ensures Truthy(elementDuration) ==> currentTime == position
      ensures elementDuration.Finite? && elementDuration.seconds != 0.0 ==>
        progress == (position / elementDuration.seconds) * 100.0
      ensures elementDuration.Infinite? ==> progress == 0.0
    {
      elementPosition := position;
      if Truthy(elementDuration) {
        currentTime := position;
        progress := if elementDuration.Finite? then (position / elementDuration.seconds) * 100.0 else 0.0;
      }
    }

    /** `ended`: not playing, progress and time back to 0, `onPause` called. */
    method OnEnded()
      requires Valid()
      modifies this`isPlaying, this`progress, this`currentTime, this`elementEnded, this`effects
      ensures Valid()
      ensures !isPlaying && progress == 0.0 && currentTime == 0.0 && elementEnded
      ensures effects == old(effects) + (if hasOnPause then [OnPauseCalled] else [])
    {
      elementEnded := true;
      isPlaying := false;
      progress := 0.0;
      currentTime := 0.0;
      if hasOnPause {
        effects := effects + [OnPauseCalled];
      }
    }

    /** `error`: loading and playing both cleared, the "Audio Error" toast. */
    method OnError()
      requires Valid()
      modifies this`isLoading, this`isPlaying, this`effects
      ensures Valid()
      ensures !isLoading && !isPlaying
      ensures effects == old(effects) + [Toast("Audio Error")]
    {
      isLoading := false;
      effects := effects + [Toast("Audio Error")];
      isPlaying := false;
    }

    /** The time line under the title: `formatTime(currentTime) / formatTime(duration)`. */
    function TimeLine(): (r: string)
      requires Valid()
      reads this
      ensures r == Clock.Format(currentTime.Floor) + " / " +
                   Clock.Format(if duration.Finite? then duration.seconds.Floor else 0)
    {
      FormatTimeIsWholeSecondClock(Finite(currentTime));
      FormatTimeIsWholeSecondClock(duration);
      FormatTime(Finite(currentTime)) + " / " + FormatTime(duration)
    }
  }

  /** Two mute toggles on a mounted player give the element its volume back. */
  method MuteTwice(url: string) returns (before: real, muted: real, after: real)
    requires url != ""
    ensures before == after == 1.0 && muted == 0.0
  {
    var p := new Player(Some(url), false, false);
    before := p.elementVolume;
    p.ToggleMute();
    muted := p.elementVolume;
    p.ToggleMute();
    after := p.elementVolume;
  }

  /**
   * A poem whose `audio_url` is the empty string: no element is rendered,
   * so pressing play only shows "No Audio Available" and muting does nothing.
   */
  method PlayEmptyUrl(outcome: PlayOutcome) returns (playing: bool, muted: bool, toasts: seq<Effect>)
    ensures !playing && !muted
    ensures toasts == [Toast("No Audio Available")]
  {
    var p := new Player(Some(""), true, true);
    p.TogglePlay(outcome);
    p.ToggleMute();
    playing, muted, toasts := p.isPlaying, p.isMuted, p.effects;
  }

  /**
   * A ten-second track played to its end, then the bar clicked at the
   * middle and play pressed: playback resumes at five seconds, not at 0.
   */
  method ResumeAfterSeek(url: string) returns (position: real, playing: bool)
    requires url != ""
    ensures position == 5.0 && playing
  {
    var p := new Player(Some(url), false, false);
    p.OnLoadedMetadata(Finite(10.0));
    p.OnEnded();
    p.Seek(0.5);
    p.TogglePlay(Resolves);
    position, playing := p.elementPosition, p.isPlaying;
  }
}
