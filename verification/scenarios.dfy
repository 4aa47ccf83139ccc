/**
  Client-side call sequences on a freshly loaded player (empty storage,
  every preview 30 seconds long), with what the engine's contracts
  guarantee each one observes.
*/
module Scenarios {
  import opened Types
  import opened Listeners
  import opened AudioService

  function ThirtySeconds(url: string): Seconds { 30.0 }

  /** Idle, playTrack(t): listeners see trackChange then play, both with the new state. */
  method PlayFromIdle(t: Track) returns (current: Option<Track>, playing: bool, seen: seq<Invocation>)
    ensures current == Some(t) && playing
    ensures |seen| == 2
    ensures seen[0].event == TrackChange && seen[0].callback == 1
    ensures seen[1].event == Play && seen[1].callback == 2
    ensures seen[0].snapshot == seen[1].snapshot && seen[0].snapshot.currentTrack == Some(t)
  {
    var p := new Player(ThirtySeconds, None);
    p.AddEventListener(TrackChange, 1);
    p.AddEventListener(Play, 2);
    p.PlayTrack(t);
    current, playing, seen := p.GetPlayerState().currentTrack, p.GetPlayerState().isPlaying, p.log;
  }

  /** Idle, queueTrack(x): x plays at once and the queue stays empty. */
  method QueueWhenIdle(x: Track) returns (current: Option<Track>, queued: nat)
    ensures current == Some(x) && queued == 0
  {
    var p := new Player(ThirtySeconds, None);
    var _ := p.QueueTrack(x, 0);
    current, queued := p.GetPlayerState().currentTrack, |p.GetPlayerState().queue|;
  }

  /** Idle, forceQueueTrack(x): nothing plays and x waits in the queue. */
  method ForceQueueWhenIdle(x: Track) returns (current: Option<Track>, queued: seq<QueueItem>)
    ensures current == None && queued == [QueueItem(x, 0)]
  {
    var p := new Player(ThirtySeconds, None);
    var _ := p.ForceQueueTrack(x, 0);
    current, queued := p.GetPlayerState().currentTrack, p.GetPlayerState().queue;
  }

  /** Playing a, queue b then c: playNextTrack returns b, then c, then null. */
  method QueueInOrder(a: Track, b: Track, c: Track)
    returns (first: Option<Track>, second: Option<Track>, third: Option<Track>, playing: bool)
    ensures first == Some(b) && second == Some(c) && third == None && !playing
  {
    var p := new Player(ThirtySeconds, None);
    p.PlayTrack(a);
    var _ := p.QueueTrack(b, 1);
    var _ := p.QueueTrack(c, 2);
    first := p.PlayNextTrack();
    second := p.PlayNextTrack();
    third := p.PlayNextTrack();
    playing := p.GetPlayerState().isPlaying;
  }

  /**
    Playing at 10 seconds with nothing queued, playNextTrack: the player goes
    idle and the element rewinds, but the stored time stays at 10.
  */
  method QueueRunsOut(t: Track) returns (next: Option<Track>, current: Option<Track>, storedTime: real, elementTime: real)
    ensures next == None && current == None
    ensures storedTime == 10.0 && elementTime == 0.0
  {
    var p := new Player(ThirtySeconds, None);
    p.PlayTrack(t);
    var _ := p.SeekTo(10.0);
    next := p.PlayNextTrack();
    current, storedTime, elementTime := p.GetPlayerState().currentTrack, p.GetPlayerState().currentTime, p.audio.position;
  }

  /** A long skip forward stops at the end of the 30-second preview. */
  method SkipPastEnd(t: Track) returns (newTime: real, storedTime: real)
    ensures newTime == 30.0 && storedTime == 30.0
  {
    var p := new Player(ThirtySeconds, None);
    p.PlayTrack(t);
    newTime := p.SkipForward(9999.0);
    storedTime := p.GetPlayerState().currentTime;
  }

  /** A callback subscribed twice and then removed is no longer called; the other one still is. */
  method UnsubscribeAll(t: Track) returns (seen: seq<Invocation>)
    ensures |seen| == 1 && seen[0].event == Play && seen[0].callback == 8
  {
    var p := new Player(ThirtySeconds, None);
    p.AddEventListener(Play, 7);
    p.AddEventListener(Play, 8);
    p.AddEventListener(Play, 7);
    assert p.listeners[Play] == [7, 8, 7];
    p.RemoveEventListener(Play, 7);
    assert Without([7, 8, 7], 7) == [8];
    assert p.listeners[Play] == [8] && p.listeners[TrackChange] == [] && p.listeners[Pause] == [];
    p.PlayTrack(t);
    assert p.log == Fanout(Play, [8], p.GetPlayerState());
    var _ := p.TogglePlay();
    seen := p.log;
  }
}
