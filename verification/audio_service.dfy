/**
  The playback/queue state engine: persisted player state, the lazily
  created audio element, the listener registry and the transport
  operations. Every operation reads the stored state, changes it, saves it
  and notifies listeners, each of which receives the state read back from
  storage at that moment.
*/
module AudioService {
  import opened Types
  import opened Listeners
  import opened Playback
  import opened Audio

  /** playPreviousTrack tells positions past this many seconds apart; both of its branches rewind to 0. */
  const RestartThreshold: real := 3.0

  class Player {
    /** The duration the browser reports for each source. */
    const mediaDuration: string -> Seconds
    /** The "playerState" entry of local storage; None when absent or unreadable. */
    var stored: Option<PlayerState>
    /** The singleton audio element, created on first use. */
    var audio: AudioElement?
    var listeners: Registry
    /** Every callback invocation so far, oldest first. */
    var log: seq<Invocation>

    ghost predicate Valid()
      reads this, audio
    {
      && Complete(listeners)
      && (stored.Some? ==> Consistent(stored.value))
      && (audio != null ==> audio.Valid() && audio.durationOf == mediaDuration)
    }

    /** getPlayerState: the stored state, or the default when there is none. */
    function GetPlayerState(): (s: PlayerState)
      reads this
      ensures (stored.Some? ==> Consistent(stored.value)) ==> Consistent(s)
      ensures stored.None? ==> s.currentTrack == None && s.queue == []
      ensures stored.None? ==> s == DefaultPlayerState()
      ensures stored.Some? ==> s == stored.value
    {
      match stored
      case Some(saved) => saved
      case None => DefaultPlayerState()
    }

    /** The element's properties, or those initAudio would give a new one. */
    function ElementView(): AudioView
      reads this, audio
    {
      if audio == null then FreshView() else audio.View()
    }

    /** What notifying `e` delivers when the stored snapshot is `s`. */
    function Delivered(e: Event, s: PlayerState): seq<Invocation>
      requires Complete(listeners)
      reads this
    {
      Fanout(e, listeners[e], s)
    }

    /** The element exists afterwards and is the one there was, if there was one. */
    twostate predicate KeepsElement()
      reads this
    {
      && audio != null
      && (old(audio) == null ==> fresh(audio))
      && (old(audio) != null ==> audio == old(audio))
    }

    /** A page load: storage holds `saved`, no element yet, no listeners. */
    constructor (mediaDuration: string -> Seconds, saved: Option<PlayerState>)
      requires saved.Some? ==> Consistent(saved.value)
      ensures Valid()
      ensures stored == saved && audio == null && log == []
      ensures listeners == EmptyRegistry() && this.mediaDuration == mediaDuration
    {
      this.mediaDuration := mediaDuration;
      stored := saved;
      audio := null;
      listeners := EmptyRegistry();
      log := [];
    }

    /** initAudio: create the element the first time, otherwise keep it. */
    method InitAudio()
      requires Valid()
      modifies this`audio
      ensures Valid() && KeepsElement()
      ensures audio.View() == old(ElementView())
    {
      if audio == null {
        audio := new AudioElement(mediaDuration);
      }
    }

    /** savePlayerState: what is saved is what getPlayerState reads back. */
    method SavePlayerState(s: PlayerState)
      requires Valid() && Consistent(s)
      modifies this`stored
      ensures Valid()
      ensures stored == Some(s) && GetPlayerState() == s
    {
      stored := Some(s);
    }

    method AddEventListener(e: Event, cb: CallbackId)
      requires Valid()
      modifies this`listeners
      ensures Valid()
      ensures listeners == old(listeners)[e := old(listeners)[e] + [cb]]
    {
      listeners := listeners[e := listeners[e] + [cb]];
    }

    method RemoveEventListener(e: Event, cb: CallbackId)
      requires Valid()
      modifies this`listeners
      ensures Valid()
      ensures listeners == old(listeners)[e := Without(old(listeners)[e], cb)]
      ensures cb !in listeners[e]
    {
      listeners := listeners[e := Without(listeners[e], cb)];
    }

    /** notifyListeners: call each listener of `e`, in order, with the stored state. */
    method NotifyListeners(e: Event)
      requires Valid()
      modifies this`log
      ensures Valid()
      ensures log == old(log) + Delivered(e, GetPlayerState())
    {
      var snapshot := GetPlayerState();
      var callbacks := listeners[e];
      var i := 0;
      while i < |callbacks|
        invariant 0 <= i <= |callbacks|
        invariant log == old(log) + Fanout(e, callbacks[..i], snapshot)
      {
        assert Fanout(e, callbacks[..i + 1], snapshot)
            == Fanout(e, callbacks[..i], snapshot) + [Invocation(e, callbacks[i], snapshot)];
        log := log + [Invocation(e, callbacks[i], snapshot)];
        i := i + 1;
      }
      assert callbacks[..i] == callbacks;
    }

    method PlayTrack(t: Track)
      requires Valid()
      modifies this, audio
      ensures Valid() && KeepsElement() && listeners == old(listeners)
      ensures stored == Some(AfterPlay(old(GetPlayerState()), t))
      ensures audio.View() == AudioView(t.preview, 0.0, GetPlayerState().volume, false)
      ensures log == old(log) + Delivered(TrackChange, GetPlayerState())
                              + Delivered(Play, GetPlayerState())
    {
      InitAudio();
      var state := GetPlayerState();
      state := state.(currentTrack := Some(t), isPlaying := true);
      SavePlayerState(state);
      audio.SetSource(t.preview);
      audio.SetVolume(state.volume);
      audio.Play();
      NotifyListeners(TrackChange);
      NotifyListeners(Play);
    }

    /** queueTrack: start playing when idle, otherwise append to the queue. */
    method QueueTrack(t: Track, queuedAt: nat) returns (item: QueueItem)
      requires Valid()
      modifies this, audio
      ensures Valid() && listeners == old(listeners)
      ensures item == QueueItem(t, queuedAt)
      ensures stored == Some(AfterQueue(old(GetPlayerState()), item))
      ensures old(GetPlayerState()).currentTrack == None ==>
        && KeepsElement()
        && audio.View() == AudioView(t.preview, 0.0, GetPlayerState().volume, false)
        && log == old(log) + Delivered(TrackChange, GetPlayerState())
                           + Delivered(Play, GetPlayerState())
      ensures old(GetPlayerState()).currentTrack != None ==>
        && audio == old(audio) && ElementView() == old(ElementView())
        && log == old(log) + Delivered(QueueUpdate, GetPlayerState())
    {
      var state := GetPlayerState();
      item := QueueItem(t, queuedAt);
      if state.currentTrack == None {
        PlayTrack(t);
      } else {
        state := state.(queue := state.queue + [item]);
        SavePlayerState(state);
        NotifyListeners(QueueUpdate);
      }
    }

    /** forceQueueTrack: always append, never start playback. */
    method ForceQueueTrack(t: Track, queuedAt: nat) returns (item: QueueItem)
      requires Valid()
      modifies this`stored, this`log
      ensures Valid()
      ensures item == QueueItem(t, queuedAt)
      ensures stored == Some(old(GetPlayerState()).(queue := old(GetPlayerState()).queue + [item]))
      ensures log == old(log) + Delivered(QueueUpdate, GetPlayerState())
    {
      var state := GetPlayerState();
      item := QueueItem(t, queuedAt);
      state := state.(queue := state.queue + [item]);
      SavePlayerState(state);
      NotifyListeners(QueueUpdate);
    }

    /**
      togglePlay: nothing happens without a current track; otherwise the
      playing flag flips and the element follows. Listeners are notified
      before the save, so they receive the state as it was.
    */
    method TogglePlay() returns (playing: bool)
      requires Valid()
      modifies this, audio
      ensures Valid() && KeepsElement() && listeners == old(listeners)
      ensures old(GetPlayerState()).currentTrack == None ==>
        && !playing
        && stored == old(stored) && log == old(log)
        && audio.View() == old(ElementView())
      ensures old(GetPlayerState()).currentTrack != None ==>
        && playing == !old(GetPlayerState()).isPlaying
        && stored == Some(old(GetPlayerState()).(isPlaying := playing))
        && audio.View() == old(ElementView()).(paused := !playing)
        && log == old(log) + Delivered(if playing then Play else Pause, old(GetPlayerState()))
    {
      InitAudio();
      var state := GetPlayerState();
      if state.currentTrack == None {
        return false;
      }
      if state.isPlaying {
        audio.Pause();
        state := state.(isPlaying := false);
        NotifyListeners(Pause);
      } else {
        audio.Play();
        state := state.(isPlaying := true);
        NotifyListeners(Play);
      }
      SavePlayerState(state);
      playing := state.isPlaying;
    }

    /** skipForward (callers pass 5 by default): move by `seconds`, kept inside the media. */
    method SkipForward(seconds: real) returns (newTime: real)
      requires Valid()
      modifies this, audio
      ensures Valid() && KeepsElement() && listeners == old(listeners)
      ensures 0.0 <= newTime <= audio.Duration()
      ensures old(GetPlayerState()).currentTrack == None ==>
        && newTime == 0.0
        && stored == old(stored) && log == old(log)
        && audio.View() == old(ElementView())
      ensures old(GetPlayerState()).currentTrack != None ==>
        && newTime == SkipForwardTarget(old(ElementView()).position, seconds, audio.Duration())
        && audio.View() == old(ElementView()).(position := newTime)
        && stored == Some(old(GetPlayerState()).(currentTime := newTime))
        && log == old(log) + Delivered(TimeUpdate, GetPlayerState())
    {
      InitAudio();
      var state := GetPlayerState();
      if state.currentTrack == None {
        return 0.0;
      }
      newTime := SkipForwardTarget(audio.position, seconds, audio.Duration());
      audio.SetCurrentTime(newTime);
      state := state.(currentTime := newTime);
      SavePlayerState(state);
      NotifyListeners(TimeUpdate);
    }

    /**
      skipBackward (callers pass 5 by default): move back by `seconds`,
      floored at the start. A negative argument can move past the end: the
      element then stops at the end while the returned and stored time do not.
    */
    method SkipBackward(seconds: real) returns (newTime: real)
      requires Valid()
      modifies this, audio
      ensures Valid() && KeepsElement() && listeners == old(listeners)
      ensures 0.0 <= newTime
      ensures old(GetPlayerState()).currentTrack == None ==>
        && newTime == 0.0
        && stored == old(stored) && log == old(log)
        && audio.View() == old(ElementView())
      ensures old(GetPlayerState()).currentTrack != None ==>
        && newTime == SkipBackwardTarget(old(ElementView()).position, seconds)
        && audio.View() == old(ElementView()).(position := SeekPosition(newTime, audio.Duration()))
        && (0.0 <= seconds ==> audio.position == newTime)
        && stored == Some(old(GetPlayerState()).(currentTime := newTime))
        && log == old(log) + Delivered(TimeUpdate, GetPlayerState())
    {
      InitAudio();
      var state := GetPlayerState();
      if state.currentTrack == None {
        return 0.0;
      }
      newTime := SkipBackwardTarget(audio.position, seconds);
      audio.SetCurrentTime(newTime);
      state := state.(currentTime := newTime);
      SavePlayerState(state);
      NotifyListeners(TimeUpdate);
    }

    /** seekTo: jump to `position`, kept inside the media. */
    method SeekTo(position: real) returns (newTime: real)
      requires Valid()
      modifies this, audio
      ensures Valid() && KeepsElement() && listeners == old(listeners)
      ensures 0.0 <= newTime <= audio.Duration()
      ensures old(GetPlayerState()).currentTrack == None ==>
        && newTime == 0.0
        && stored == old(stored) && log == old(log)
        && audio.View() == old(ElementView())
      ensures old(GetPlayerState()).currentTrack != None ==>
        && newTime == SeekTarget(position, audio.Duration())
        && audio.View() == old(ElementView()).(position := newTime)
        && stored == Some(old(GetPlayerState()).(currentTime := newTime))
        && log == old(log) + Delivered(TimeUpdate, GetPlayerState())
    {
      InitAudio();
      var state := GetPlayerState();
      if state.currentTrack == None {
        return 0.0;
      }
      newTime := SeekTarget(position, audio.Duration());
      audio.SetCurrentTime(newTime);
      state := state.(currentTime := newTime);
      SavePlayerState(state);
      NotifyListeners(TimeUpdate);
    }

    /**
      playNextTrack: play the head of the queue and return it; with an empty
      queue stop (the element pauses at the start) and return null.
    */
    method PlayNextTrack() returns (next: Option<Track>)
      requires Valid()
      modifies this, audio
      ensures Valid() && KeepsElement() && listeners == old(listeners)
      ensures (next, GetPlayerState()) == AfterNext(old(GetPlayerState())) && stored.Some?
      ensures |old(GetPlayerState()).queue| == 0 ==>
        && audio.View() == old(ElementView()).(position := 0.0, paused := true)
        && log == old(log) + Delivered(TrackChange, GetPlayerState())
      ensures |old(GetPlayerState()).queue| > 0 ==>
        && audio.View() == AudioView(next.value.preview, 0.0, GetPlayerState().volume, false)
        && log == old(log) + Delivered(TrackChange, GetPlayerState())
                           + Delivered(Play, GetPlayerState())
    {
      var state := GetPlayerState();
      if |state.queue| == 0 {
        state := state.(currentTrack := None, isPlaying := false);
        InitAudio();
        audio.Pause();
        audio.SetCurrentTime(0.0);
        SavePlayerState(state);
        NotifyListeners(TrackChange);
        return None;
      }
      var head := state.queue[0];
      state := state.(queue := state.queue[1..]);
      SavePlayerState(state);
      PlayTrack(head.track);
      next := Some(head.track);
    }

    /** playPreviousTrack: restart the current position at 0, track or no track. */
    method PlayPreviousTrack()
      requires Valid()
      modifies this, audio
      ensures Valid() && KeepsElement() && listeners == old(listeners)
      ensures audio.View() == old(ElementView()).(position := 0.0)
      ensures stored == Some(old(GetPlayerState()).(currentTime := 0.0))
      ensures log == old(log) + Delivered(TimeUpdate, GetPlayerState())
    {
      InitAudio();
      var state := GetPlayerState();
      if audio.position > RestartThreshold {
        audio.SetCurrentTime(0.0);
        state := state.(currentTime := 0.0);
        SavePlayerState(state);
        NotifyListeners(TimeUpdate);
        return;
      }
      audio.SetCurrentTime(0.0);
      state := state.(currentTime := 0.0);
      SavePlayerState(state);
      NotifyListeners(TimeUpdate);
    }

    /** setVolume: clamp to [0, 1], apply to the element and the state. */
    method SetVolume(volume: real) returns (applied: real)
      requires Valid()
      modifies this, audio
      ensures Valid() && KeepsElement() && listeners == old(listeners)
      ensures applied == NormalizeVolume(volume) && 0.0 <= applied <= 1.0
      ensures audio.View() == old(ElementView()).(volume := applied)
      ensures stored == Some(old(GetPlayerState()).(volume := applied))
      ensures log == old(log) + Delivered(VolumeChange, GetPlayerState())
    {
      InitAudio();
      var state := GetPlayerState();
      applied := NormalizeVolume(volume);
      audio.SetVolume(applied);
      state := state.(volume := applied);
      SavePlayerState(state);
      NotifyListeners(VolumeChange);
    }

    /** clearQueue: drop every queued item; playback is untouched. */
    method ClearQueue()
      requires Valid()
      modifies this`stored, this`log
      ensures Valid()
      ensures stored == Some(old(GetPlayerState()).(queue := []))
      ensures log == old(log) + Delivered(QueueUpdate, GetPlayerState())
    {
      var state := GetPlayerState();
      state := state.(queue := []);
      SavePlayerState(state);
      NotifyListeners(QueueUpdate);
    }

    /** The element's "ended" handler: advance the queue, then notify the end. */
    method OnEnded()
      requires Valid() && audio != null
      modifies this, audio
      ensures Valid() && audio == old(audio) && listeners == old(listeners)
      ensures GetPlayerState() == AfterNext(old(GetPlayerState())).1 && stored.Some?
      ensures |old(GetPlayerState()).queue| == 0 ==>
        && audio.View() == old(audio.View()).(position := 0.0, paused := true)
        && log == old(log) + Delivered(TrackChange, GetPlayerState())
                           + Delivered(End, GetPlayerState())
      ensures |old(GetPlayerState()).queue| > 0 ==>
        && audio.View() == AudioView(old(GetPlayerState()).queue[0].track.preview, 0.0,
                                     GetPlayerState().volume, false)
        && log == old(log) + Delivered(TrackChange, GetPlayerState())
                           + Delivered(Play, GetPlayerState())
                           + Delivered(End, GetPlayerState())
    {
      var _ := PlayNextTrack();
      NotifyListeners(End);
    }

    /**
      A "timeupdate" from the element: the browser has moved playback to
      `playhead`; the handler stores that position and notifies.
    */
    method OnTimeUpdate(playhead: real)
      requires Valid() && audio != null && 0.0 <= playhead <= audio.Duration()
      modifies this, audio
      ensures Valid() && audio == old(audio) && listeners == old(listeners)
      ensures audio.View() == old(audio.View()).(position := playhead)
      ensures stored == Some(old(GetPlayerState()).(currentTime := playhead))
      ensures log == old(log) + Delivered(TimeUpdate, GetPlayerState())
    {
      audio.Progress(playhead);
      var state := GetPlayerState();
      state := state.(currentTime := audio.position);
      SavePlayerState(state);
      NotifyListeners(TimeUpdate);
    }
  }
}
