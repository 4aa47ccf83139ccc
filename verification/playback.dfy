/**
  The pure part of the playback engine: the clamp expressions of the
  transport controls and the effect of the queue operations on the stored
  state, with the queue discipline (first in, first out; play if idle)
  proved over any interleaving of queue and next calls that starts
  with no track waiting behind an idle player.
*/
module Playback {
  import opened Types

  function Min(a: real, b: real): real { if a <= b then a else b }

  function Max(a: real, b: real): real { if a >= b then a else b }

  /** `Math.max(0, Math.min(1, volume))`: the volume setVolume applies. */
  function NormalizeVolume(volume: real): (r: real)
    ensures 0.0 <= r <= 1.0
    ensures 0.0 <= volume <= 1.0 ==> r == volume
    ensures volume < 0.0 ==> r == 0.0
    ensures 1.0 < volume ==> r == 1.0
  {
    Max(0.0, Min(1.0, volume))
  }

  /** `Math.max(0, Math.min(duration, position))`: where seekTo moves. */
  function SeekTarget(position: real, duration: Seconds): (r: real)
    ensures 0.0 <= r <= duration
    ensures 0.0 <= position <= duration ==> r == position
    ensures position < 0.0 ==> r == 0.0
    ensures duration < position ==> r == duration
  {
    Max(0.0, Min(duration, position))
  }

  /**
    Where skipForward moves from `current`: a negative step is floored at
    the start, a non-negative one capped at the end.
  */
  function SkipForwardTarget(current: real, seconds: real, duration: Seconds): (r: real)
    ensures seconds < 0.0 ==> 0.0 <= r
    ensures 0.0 <= seconds ==> r <= duration
    ensures 0.0 <= current <= duration ==> 0.0 <= r <= duration
    ensures 0.0 <= current + seconds <= duration ==> r == current + seconds
    ensures 0.0 <= seconds && duration < current + seconds ==> r == duration
    ensures seconds < 0.0 && current + seconds < 0.0 ==> r == 0.0
  {
    if seconds < 0.0 then Max(0.0, current + seconds)
    else Min(duration, current + seconds)
  }

  /** `Math.max(0, current - seconds)`: where skipBackward moves; never capped at the end. */
  function SkipBackwardTarget(current: real, seconds: real): (r: real)
    ensures 0.0 <= r
    ensures 0.0 <= current - seconds ==> r == current - seconds
    ensures current - seconds < 0.0 ==> r == 0.0
  {
    Max(0.0, current - seconds)
  }

  /** The stored state after playTrack(t). */
  function AfterPlay(s: PlayerState, t: Track): (r: PlayerState)
    ensures Consistent(s) ==> Consistent(r)
  {
    s.(currentTrack := Some(t), isPlaying := true)
  }

  /** The stored state after queueTrack: play when idle, append otherwise. */
  function AfterQueue(s: PlayerState, item: QueueItem): (r: PlayerState)
    ensures s.currentTrack == None ==>
      r.currentTrack == Some(item.track) && r.isPlaying && r.queue == s.queue
    ensures s.currentTrack != None ==>
      && r.queue == s.queue + [item]
      && r.currentTrack == s.currentTrack && r.isPlaying == s.isPlaying
    ensures r.currentTime == s.currentTime && r.volume == s.volume
    ensures Consistent(s) ==> Consistent(r)
  {
    if s.currentTrack == None then AfterPlay(s, item.track)
    else s.(queue := s.queue + [item])
  }

  /**
    The track playNextTrack returns and the stored state it leaves: the
    head of the queue becomes current and playing; an empty queue stops
    playback (the stored currentTime is left as it was).
  */
  function AfterNext(s: PlayerState): (r: (Option<Track>, PlayerState))
    ensures |s.queue| == 0 ==>
      r.0 == None && r.1 == s.(currentTrack := None, isPlaying := false)
    ensures |s.queue| > 0 ==>
      && r.0 == Some(s.queue[0].track)
      && r.1.currentTrack == r.0 && r.1.isPlaying
      && r.1.queue == s.queue[1..]
      && r.1.currentTime == s.currentTime && r.1.volume == s.volume
    ensures Consistent(s) ==> Consistent(r.1)
  {
    if |s.queue| == 0 then (None, s.(currentTrack := None, isPlaying := false))
    else
      var head := s.queue[0];
      (Some(head.track), AfterPlay(s.(queue := s.queue[1..]), head.track))
  }

  /** The tracks of a queue, front first. */
  function TracksOf(items: seq<QueueItem>): seq<Track> {
    seq(|items|, k requires 0 <= k < |items| => items[k].track)
  }

  /** queueTrack applied to each item in turn. */
  function QueueAll(s: PlayerState, items: seq<QueueItem>): PlayerState
    decreases |items|
  {
    if items == [] then s else QueueAll(AfterQueue(s, items[0]), items[1..])
  }

  /** The tracks successive playNextTrack calls return until one returns null. */
  function Drained(s: PlayerState): seq<Track>
    decreases |s.queue|
  {
    if |s.queue| == 0 then []
    else
      var (next, s') := AfterNext(s);
      [next.value] + Drained(s')
  }

  /** playNextTrack hands out the queue exactly in its stored order. */
  lemma {:induction false} DrainedFollowsQueue(s: PlayerState)
    ensures Drained(s) == TracksOf(s.queue)
    decreases |s.queue|
  {
    if |s.queue| > 0 {
      var s' := AfterNext(s).1;
      DrainedFollowsQueue(s');
      assert TracksOf(s.queue) == [s.queue[0].track] + TracksOf(s.queue[1..]);
    }
  }

  /** While a track is current, queueing only appends and never disturbs playback. */
  lemma {:induction false} QueueAllWhilePlaying(s: PlayerState, items: seq<QueueItem>)
    requires s.currentTrack != None
    ensures QueueAll(s, items) == s.(queue := s.queue + items)
    decreases |items|
  {
    if items == [] {
      assert s.queue + items == s.queue;
    } else {
      QueueAllWhilePlaying(AfterQueue(s, items[0]), items[1..]);
      assert s.queue + [items[0]] + items[1..] == s.queue + items;
    }
  }

  /** From idle, the first queued track starts playing and the rest wait behind what was queued. */
  lemma QueueAllFromIdle(s: PlayerState, items: seq<QueueItem>)
    requires s.currentTrack == None && items != []
    ensures QueueAll(s, items)
         == s.(currentTrack := Some(items[0].track), isPlaying := true, queue := s.queue + items[1..])
  {
    QueueAllWhilePlaying(AfterQueue(s, items[0]), items[1..]);
  }

  /**
    First in, first out: tracks queued while something plays come back from
    playNextTrack after what was already queued, in the order they were queued.
  */
  lemma QueueIsFifo(s: PlayerState, items: seq<QueueItem>)
    requires s.currentTrack != None
    ensures Drained(QueueAll(s, items)) == TracksOf(s.queue) + TracksOf(items)
  {
    QueueAllWhilePlaying(s, items);
    DrainedFollowsQueue(QueueAll(s, items));
    assert TracksOf(s.queue + items) == TracksOf(s.queue) + TracksOf(items);
  }

  /** One call to the queue engine: queueTrack(item) or playNextTrack(). */
  datatype Call = Queue(item: QueueItem) | Next

  /** Every waiting track is behind a current one: an idle player has an empty queue. */
  predicate Settled(s: PlayerState) {
    s.currentTrack == None ==> |s.queue| == 0
  }

  /** The track a call starts, if any, and the stored state it leaves. */
  function Step(s: PlayerState, c: Call): (r: (Option<Track>, PlayerState))
    ensures c.Queue? && s.currentTrack == None ==> r.0 == Some(c.item.track)
    ensures c.Queue? && s.currentTrack != None ==> r.0 == None
    ensures c.Queue? ==> r.1 == AfterQueue(s, c.item)
    ensures c.Next? ==> r == AfterNext(s)
    ensures Settled(s) ==> Settled(r.1)
  {
    match c
    case Queue(item) => (if s.currentTrack == None then Some(item.track) else None, AfterQueue(s, item))
    case Next => AfterNext(s)
  }

  function Started(t: Option<Track>): seq<Track> {
    if t.Some? then [t.value] else []
  }

  /** The tracks queueTrack calls hand over, in call order. */
  function Queued(calls: seq<Call>): seq<Track>
    decreases |calls|
  {
    if calls == [] then []
    else (if calls[0].Queue? then [calls[0].item.track] else []) + Queued(calls[1..])
  }

  /** The tracks started over a run of calls, in order, and the stored state at its end. */
  function Run(s: PlayerState, calls: seq<Call>): (r: (seq<Track>, PlayerState))
    ensures Settled(s) ==> Settled(r.1)
    decreases |calls|
  {
    if calls == [] then ([], s)
    else
      var step := Step(s, calls[0]);
      var rest := Run(step.1, calls[1..]);
      (Started(step.0) + rest.0, rest.1)
  }

  /** One call from a settled state moves its started track from the waiting side to the started side. */
  lemma StepConserves(s: PlayerState, c: Call)
    requires Settled(s)
    ensures Started(Step(s, c).0) + TracksOf(Step(s, c).1.queue) == TracksOf(s.queue) + Queued([c])
  {
  }

  /**
    First in, first out over any interleaving of queueTrack and
    playNextTrack: from a settled state, the tracks started followed by the
    tracks still waiting are exactly the tracks that were waiting followed
    by the tracks queued, in call order.
  */
  lemma {:induction false} RunIsFifo(s: PlayerState, calls: seq<Call>)
    requires Settled(s)
    ensures Run(s, calls).0 + TracksOf(Run(s, calls).1.queue) == TracksOf(s.queue) + Queued(calls)
    decreases |calls|
  {
    if calls != [] {
      var step := Step(s, calls[0]);
      var rest := Run(step.1, calls[1..]);
      assert Run(s, calls) == (Started(step.0) + rest.0, rest.1);
      assert Queued(calls) == Queued([calls[0]]) + Queued(calls[1..]);
      StepConserves(s, calls[0]);
      RunIsFifo(step.1, calls[1..]);
      Regroup(Started(step.0), rest.0, TracksOf(rest.1.queue), TracksOf(step.1.queue),
              Queued(calls[1..]), TracksOf(s.queue), Queued([calls[0]]));
    }
  }

  /** The bookkeeping step of RunIsFifo: what one call moves, followed by what the rest moves. */
  lemma Regroup<T>(first: seq<T>, later: seq<T>, left: seq<T>, mid: seq<T>, queuedLater: seq<T>,
                   waiting: seq<T>, queuedFirst: seq<T>)
    requires later + left == mid + queuedLater
    requires first + mid == waiting + queuedFirst
    ensures first + later + left == waiting + (queuedFirst + queuedLater)
  {
    calc {
      first + later + left;
      first + (later + left);
      first + (mid + queuedLater);
      (first + mid) + queuedLater;
    }
  }

  /** Hence the tracks a run starts are, in order, a prefix of the waiting tracks followed by the queued ones. */
  lemma RunStartsInQueueOrder(s: PlayerState, calls: seq<Call>)
    requires Settled(s)
    ensures Run(s, calls).0 <= TracksOf(s.queue) + Queued(calls)
  {
    RunIsFifo(s, calls);
    var started, waiting := Run(s, calls).0, TracksOf(Run(s, calls).1.queue);
    assert started == (started + waiting)[..|started|];
  }
}
