/**
 * The mute/volume controls of app/page.tsx: `toggleMute`, the volume
 * slider's handler and the volume a new utterance is built with. Volume is
 * a real number; the source only assigns it and compares it with 0.
 */
module Volume {
  import opened Wrappers

  /**
   * The page's volume state. `live` is the volume of the utterance held in
   * `utteranceRef.current`, or None while no utterance has been built.
   */
  datatype VolumeState = VolumeState(volume: real, previousVolume: real, isMuted: bool, live: Option<real>)

  /** The initial state: `useState(1)` for both volumes, not muted, no utterance. */
  const Initial: VolumeState := VolumeState(1.0, 1.0, false, None)

  /**
   * What the page keeps true: the slider's range, "muted implies silent",
   * and the live utterance playing at the volume the slider shows.
   */
  predicate Consistent(s: VolumeState)
  {
    && 0.0 <= s.volume <= 1.0
    && 0.0 <= s.previousVolume <= 1.0
    && (s.isMuted ==> s.volume == 0.0)
    && (s.live.Some? ==> s.live.value == s.volume)
  }

  /** The volume given to a newly built utterance: `isMuted ? 0 : volume`. */
  function EffectiveVolume(s: VolumeState): (v: real)
    ensures s.isMuted ==> v == 0.0
    ensures !s.isMuted ==> v == s.volume
  {
    if s.isMuted then 0.0 else s.volume
  }

  /** `toggleMute`: unmuting restores previousVolume, muting saves volume and silences. */
  function Toggled(s: VolumeState): (r: VolumeState)
    ensures s.isMuted ==> !r.isMuted && r.volume == s.previousVolume && r.previousVolume == s.previousVolume
    ensures !s.isMuted ==> r.isMuted && r.volume == 0.0 && r.previousVolume == s.volume
    ensures r.live.Some? <==> s.live.Some?
    ensures r.live.Some? ==> r.live.value == r.volume
  {
    if s.isMuted then
      s.(volume := s.previousVolume, isMuted := false,
         live := if s.live.Some? then Some(s.previousVolume) else None)
    else
      s.(previousVolume := s.volume, volume := 0.0, isMuted := true,
         live := if s.live.Some? then Some(0.0) else None)
  }

  /** The slider's `onValueChange`: the value becomes the volume; muted exactly when it is 0. */
  function SliderMoved(s: VolumeState, value: real): (r: VolumeState)
    ensures r.volume == value && r.previousVolume == s.previousVolume
    ensures r.isMuted <==> value == 0.0
    ensures r.live.Some? <==> s.live.Some?
    ensures r.live.Some? ==> r.live.value == value
  {
    s.(volume := value, isMuted := value == 0.0,
       live := if s.live.Some? then Some(value) else None)
  }

  /** `handlePlay` replaces the utterance by a new one built at the effective volume. */
  function UtteranceBuilt(s: VolumeState): (r: VolumeState)
    ensures r.live == Some(EffectiveVolume(s))
    ensures r.volume == s.volume && r.previousVolume == s.previousVolume && r.isMuted == s.isMuted
  {
    s.(live := Some(EffectiveVolume(s)))
  }

  /** Every handler keeps the page consistent. */
  lemma TransitionsKeepConsistent(s: VolumeState, value: real)
    requires Consistent(s)
    requires 0.0 <= value <= 1.0
    ensures Consistent(Toggled(s))
    ensures Consistent(SliderMoved(s, value))
    ensures Consistent(UtteranceBuilt(s))
  {
  }

  /** In a consistent state the mute flag never hides a non-zero volume. */
  lemma EffectiveVolumeIsVolume(s: VolumeState)
    requires Consistent(s)
    ensures EffectiveVolume(s) == s.volume
  {
  }

  /** Muting and then unmuting gives back the volume and the flag it started with. */
  lemma ToggleTwiceFromUnmuted(s: VolumeState)
    requires !s.isMuted
    ensures Toggled(Toggled(s)).volume == s.volume
    ensures !Toggled(Toggled(s)).isMuted
    ensures Toggled(Toggled(s)).previousVolume == s.volume
  {
  }

  /** From a consistent muted state, unmuting and muting again also restores volume and flag. */
  lemma ToggleTwiceFromMuted(s: VolumeState)
    requires Consistent(s) && s.isMuted
    ensures Toggled(Toggled(s)).volume == s.volume
    ensures Toggled(Toggled(s)).isMuted
    ensures Toggled(Toggled(s)).previousVolume == s.previousVolume
  {
  }

  /**
   * Dragging the slider to 0 mutes without saving a volume: the next toggle
   * unmutes to whatever was saved at the last mute button press.
   */
  lemma UnmuteAfterSliderZero(s: VolumeState)
    ensures Toggled(SliderMoved(s, 0.0)).volume == s.previousVolume
    ensures !Toggled(SliderMoved(s, 0.0)).isMuted
  {
  }

  /** The page's volume fields and the live utterance's volume. */
  class VolumeControl {
    var volume: real
    var previousVolume: real
    var isMuted: bool
    var utteranceVolume: Option<real>

    function State(): VolumeState
      reads this
    {
      VolumeState(volume, previousVolume, isMuted, utteranceVolume)
    }

    ghost predicate Valid()
      reads this
    {
      Consistent(State())
    }

    constructor ()
      ensures Valid()
      ensures State() == Initial
    {
      volume, previousVolume, isMuted, utteranceVolume := 1.0, 1.0, false, None;
    }

    /** `toggleMute` */
    method ToggleMute()
      requires Valid()
      modifies this
      ensures Valid()
      ensures State() == Toggled(old(State()))
    {
      if isMuted {
        volume := previousVolume;
        isMuted := false;
        if utteranceVolume.Some? {
          utteranceVolume := Some(previousVolume);
        }
      } else {
        previousVolume := volume;
        volume := 0.0;
        isMuted := true;
        if utteranceVolume.Some? {
          utteranceVolume := Some(0.0);
        }
      }
    }

    /** The volume slider's handler; the slider only yields values in [0, 1]. */
    method SlideVolume(value: real)
      requires Valid()
      requires 0.0 <= value <= 1.0
      modifies this
      ensures Valid()
      ensures State() == SliderMoved(old(State()), value)
    {
      volume := value;
      isMuted := value == 0.0;
      if utteranceVolume.Some? {
        utteranceVolume := Some(value);
      }
    }

    /** The volume part of `handlePlay`: a new utterance at `isMuted ? 0 : volume`. */
    method BuildUtterance()
      requires Valid()
      modifies this`utteranceVolume
      ensures Valid()
      ensures State() == UtteranceBuilt(old(State()))
    {
      utteranceVolume := Some(if isMuted then 0.0 else volume);
    }
  }
}
