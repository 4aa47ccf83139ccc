/**
  The values the playback engine works with: track descriptors, queue
  entries, the persisted player state and the closed set of event kinds.
*/
module Types {

  datatype Option<+T> = None | Some(value: T)

  /** A non-negative number of seconds (the duration of a loaded resource). */
  type Seconds = r: real | 0.0 <= r

  /**
    A track as delivered by the search API. The engine reads only `preview`;
    the id, title and duration are carried along unread, and artist, album,
    cover images and link are left out.
  */
  datatype Track = Track(id: int, title: string, duration: real, preview: string)

  /** A track waiting in the queue, with the (opaque) moment it was queued. */
  datatype QueueItem = QueueItem(track: Track, queuedAt: nat)

  /** The single persisted aggregate of the player. */
  datatype PlayerState = PlayerState(
    currentTrack: Option<Track>,
    queue: seq<QueueItem>,
    isPlaying: bool,
    currentTime: real,
    volume: real)

  /** What every state the engine writes satisfies. */
  predicate Consistent(s: PlayerState) {
    && 0.0 <= s.volume <= 1.0
    && 0.0 <= s.currentTime
    && (s.currentTrack == None ==> !s.isPlaying)
  }

  /** The state read back when nothing usable is stored. */
  function DefaultPlayerState(): (s: PlayerState)
    ensures Consistent(s)
    ensures s.currentTrack == None && s.queue == [] && !s.isPlaying
    ensures s.currentTime == 0.0 && s.volume == 1.0
  {
    PlayerState(None, [], false, 0.0, 1.0)
  }

  /** The seven notification kinds listeners can subscribe to. */
  datatype Event = Play | Pause | TrackChange | TimeUpdate | QueueUpdate | VolumeChange | End

  /** A subscribed callback, identified by reference. */
  type CallbackId = nat
}
