/**
  The browser's audio element as the engine uses it: a source, a playback
  position, a volume and a paused flag. Its duration is whatever the
  environment reports for the loaded source.
*/
module Audio {
  import opened Types

  /** The observable properties of an element. */
  datatype AudioView = AudioView(src: string, position: real, volume: real, paused: bool)

  /** A newly constructed element: no source, at the start, full volume, paused. */
  function FreshView(): AudioView {
    AudioView("", 0.0, 1.0, true)
  }

  /** Where assigning `currentTime := t` lands: the browser keeps the position inside the media. */
  function SeekPosition(t: real, duration: Seconds): (r: real)
    ensures 0.0 <= r <= duration
    ensures 0.0 <= t <= duration ==> r == t
    ensures t < 0.0 ==> r == 0.0
    ensures duration < t ==> r == duration
  {
    if t < 0.0 then 0.0 else if duration < t then duration else t
  }

  class AudioElement {
    /** The duration the browser reports once a source is loaded. */
    const durationOf: string -> Seconds
    var src: string
    var position: real
    var volume: real
    var paused: bool

    ghost predicate Valid()
      reads this
    {
      0.0 <= position <= durationOf(src) && 0.0 <= volume <= 1.0
    }

    function Duration(): Seconds
      reads this
    {
      durationOf(src)
    }

    function View(): AudioView
      reads this
    {
      AudioView(src, position, volume, paused)
    }

    constructor (durationOf: string -> Seconds)
      ensures Valid() && View() == FreshView() && this.durationOf == durationOf
    {
      this.durationOf := durationOf;
      src, position, volume, paused := "", 0.0, 1.0, true;
    }

    /** Assigning `src`: the new resource is loaded from its start, paused. */
    method SetSource(url: string)
      requires Valid()
      modifies this
      ensures Valid() && View() == old(View()).(src := url, position := 0.0, paused := true)
    {
      src, position, paused := url, 0.0, true;
    }

    /** A play request; the model takes it as granted. */
    method Play()
      requires Valid()
      modifies this
      ensures Valid() && View() == old(View()).(paused := false)
    {
      paused := false;
    }

    method Pause()
      requires Valid()
      modifies this
      ensures Valid() && View() == old(View()).(paused := true)
    {
      paused := true;
    }

    /** Assigning `currentTime`: a seek inside the media. */
    method SetCurrentTime(t: real)
      requires Valid()
      modifies this
      ensures Valid() && View() == old(View()).(position := SeekPosition(t, Duration()))
    {
      position := SeekPosition(t, durationOf(src));
    }

    /** Assigning `volume`; the browser refuses values outside [0, 1]. */
    method SetVolume(v: real)
      requires Valid() && 0.0 <= v <= 1.0
      modifies this
      ensures Valid() && View() == old(View()).(volume := v)
    {
      volume := v;
    }

    /** The browser's own playback moving the position forward. */
    method Progress(playhead: real)
      requires Valid() && 0.0 <= playhead <= Duration()
      modifies this
      ensures Valid() && View() == old(View()).(position := playhead)
    {
      position := playhead;
    }
  }
}
