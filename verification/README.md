# Musify playback/queue engine in Dafny

This project models the client-side playback engine of Musify
(`musify/src/services/audioServices.ts`). The engine owns four things:

- the persisted player state: the current track, a queue of waiting tracks,
  the playing flag, the current time and the volume;
- one lazily created audio element;
- a registry of listeners for seven event kinds;
- the transport operations: play, queue, force-queue, toggle, skip forward
  and back, seek, next, previous, volume and clear-queue.

Each operation reads the state from local storage, changes it, saves it and
notifies the listeners of an event. Every listener receives the state read
back from storage at that moment.

Modules:

- `Types` (`types.dfy`): tracks, queue items, `PlayerState`, the default
  state, the event kinds, and the invariant `Consistent` that every written
  state keeps: volume in [0, 1], a non-negative time, and not playing when
  no track is current.
- `Listeners` (`listeners.dfy`): the registry (`map<Event, seq<CallbackId>>`),
  the filter used by `removeEventListener` with its laws, and `Fanout`,
  which is what one notification delivers.
- `Playback` (`playback.dfy`): the clamp expressions of the transport
  controls. It also holds the effect of play, queue and next on the stored
  state. First-in-first-out order and the play-if-idle rule are proved here
  over any interleaving of queue and next calls that starts with no track
  waiting behind an idle player.
- `Audio` (`audio_element.dfy`): the audio element as a class with a source,
  position, volume and paused flag. Its behaviour follows the browser.
  Assigning `src` reloads from the start in the paused state. Assigning
  `currentTime` is a seek that stays inside [0, duration]. Assigning
  `volume` is only allowed inside [0, 1].
- `AudioService` (`audio_service.dfy`): the `Player` class. Its fields are
  `stored` (the local-storage entry), `audio` (the singleton, `null` until
  first use), `listeners` and `log` (every callback invocation together with
  the snapshot it received). Every method keeps `Valid()`. Every method states
  its whole new state in terms of the old one.
- `Scenarios` (`scenarios.dfy`): short call sequences on a freshly loaded
  player, with what they observe.

The environment enters as parameters:

- The duration the browser reports for a source is a function
  `mediaDuration` given to the `Player`.
- The queue timestamp (`new Date()`) is a `nat` argument.
- A callback is an identifier.
- A play request is always granted.

Behaviour of the code worth noting:

- After `playNextTrack` empties the queue, the stored `currentTime` keeps its
  old value; only the element rewinds. So "idle implies time 0" does not
  hold. `Scenarios.QueueRunsOut` shows it.
- `playPreviousTrack` has no idle guard. It rewinds to 0 and notifies even
  when no track is current. Both of its branches have the same effect.
- `skipBackward` is not capped at the end of the media. With a negative
  argument the returned and stored time can pass the duration, while the
  element stops at the end.
- `togglePlay` notifies before it saves. Its listeners therefore receive the
  state from before the toggle.
- `forceQueueTrack` can fill the queue while nothing plays. A later
  `queueTrack` then starts its own track at once, ahead of the waiting ones.
  The first-in-first-out order of `Playback.RunIsFifo` therefore assumes an
  idle player with an empty queue.

## Model

| member | source | states |
|---|---|---|
| `Types.DefaultPlayerState` | musify/src/services/audioServices.ts:13-19 | The default is idle: no track, empty queue, not playing, time 0, volume 1. It satisfies the state invariant. |
| `Listeners.EmptyRegistry` | musify/src/constants.ts:3-11 | The initial registry has a list for every one of the seven event kinds, and every list is empty. |
| `Listeners.Without` | musify/src/services/audioServices.ts:80 | The filtered list never contains the removed callback. Every other callback keeps its number of occurrences. Nothing is added. |
| `Listeners.WithoutConcat` | musify/src/services/audioServices.ts:80 | Filtering distributes over concatenation, so the remaining callbacks keep their relative order. |
| `Listeners.WithoutAbsent` | musify/src/services/audioServices.ts:75-82 | Removing a callback that is not subscribed leaves the list unchanged. |
| `Listeners.WithoutIdempotent` | musify/src/services/audioServices.ts:75-82 | Removing the same callback twice is the same as removing it once. |
| `Listeners.RemoveUndoesAdd` | musify/src/services/audioServices.ts:66-82 | Adding a new callback and then removing it restores the list. |
| `Listeners.WithoutOtherCommutes` | musify/src/services/audioServices.ts:75-82 | Removing two callbacks gives the same list in either order. |
| `Playback.NormalizeVolume` | musify/src/services/audioServices.ts:273 | The applied volume is in [0, 1]. It equals the request when the request is inside [0, 1], is 0 below and is 1 above. |
| `Playback.SeekTarget` | musify/src/services/audioServices.ts:215 | The seek target is in [0, duration]. It equals the requested position when that is inside, is 0 below and is the duration above. |
| `Playback.SkipForwardTarget` | musify/src/services/audioServices.ts:177-180 | A negative step never goes below 0. A non-negative step never passes the duration. From a position inside the media the result stays inside. A move that fits is exact. A non-negative step that overshoots stops exactly at the duration, and a negative step that undershoots stops exactly at 0. |
| `Playback.SkipBackwardTarget` | musify/src/services/audioServices.ts:198 | The result is never negative. It is exactly `current - seconds` when that is non-negative, and 0 otherwise. |
| `Playback.AfterPlay` | musify/src/services/audioServices.ts:95-97 | Playing a track keeps the state invariant. |
| `Playback.AfterQueue` | musify/src/services/audioServices.ts:112-128 | When idle, the track becomes current and playing and the queue is unchanged. Otherwise exactly the new item is appended and the current track and playing flag are unchanged. Time and volume never change. The invariant is kept. |
| `Playback.AfterNext` | musify/src/services/audioServices.ts:224-249 | An empty queue returns null and leaves the player idle and not playing, with time and volume unchanged. Otherwise it returns the head, makes the head current and playing, and leaves the tail as the queue. The invariant is kept. |
| `Playback.DrainedFollowsQueue` | musify/src/services/audioServices.ts:240-245 | Calling next until it returns null yields exactly the queued tracks, front first. |
| `Playback.QueueAllWhilePlaying` | musify/src/services/audioServices.ts:120-126 | While a track is current, any number of queue calls only append their items in call order. |
| `Playback.QueueAllFromIdle` | musify/src/services/audioServices.ts:120-122 | From idle, the first queued track starts playing and the later ones are appended behind what was already queued. |
| `Playback.QueueIsFifo` | musify/src/services/audioServices.ts:112-249 | Tracks queued while something plays come back from next after the tracks already queued, in the order they were queued. |
| `Playback.Step` | musify/src/services/audioServices.ts:112-249 | A queue call starts its track exactly when the player is idle and otherwise starts nothing, and its state is that of `AfterQueue`. A next call is `AfterNext`. Either keeps an idle player's queue empty. |
| `Playback.StepConserves` | musify/src/services/audioServices.ts:112-249 | Start from a state where an idle player has an empty queue. After one queue or next call, the track it starts followed by the new queue equals the old queue followed by the track the call queued. |
| `Playback.Run` | musify/src/services/audioServices.ts:112-249 | A run of queue and next calls that starts with an idle player's queue empty ends in such a state too. |
| `Playback.RunIsFifo` | musify/src/services/audioServices.ts:112-249 | Over any interleaving of queue and next calls from such a state, the tracks started followed by the tracks still queued are exactly the tracks first queued followed by those the calls queued, in call order. |
| `Playback.RunStartsInQueueOrder` | musify/src/services/audioServices.ts:112-249 | The tracks such a run starts are, in order, a prefix of the tracks first queued followed by those the calls queued. |
| `Audio.SeekPosition` | musify/src/services/audioServices.ts:182 | Assigning the element's current time lands in [0, duration], and is exact when the value is inside. |
| `Audio.AudioElement.constructor` | musify/src/services/audioServices.ts:25 | A new element has no source, is at position 0 with volume 1, and is paused. |
| `Audio.AudioElement.SetSource` | musify/src/services/audioServices.ts:99 | A new source resets the position to 0 and pauses. The volume is kept. |
| `Audio.AudioElement.Play` | musify/src/services/audioServices.ts:102 | A granted play request unpauses the element and changes nothing else. |
| `Audio.AudioElement.Pause` | musify/src/services/audioServices.ts:154 | Pausing sets the paused flag and changes nothing else. |
| `Audio.AudioElement.SetCurrentTime` | musify/src/services/audioServices.ts:182 | The position becomes the seek target clamped to the media. Nothing else changes. |
| `Audio.AudioElement.SetVolume` | musify/src/services/audioServices.ts:100 | Only volumes in [0, 1] are accepted. Only the volume changes. |
| `Audio.AudioElement.Progress` | musify/src/services/audioServices.ts:32-35 | Playback moves the position to a point inside the media. Nothing else changes. |
| `AudioService.Player.constructor` | musify/src/services/audioServices.ts:21 | On page load the stored state is whatever storage holds. There is no element, every listener list is empty, and nothing has been delivered. |
| `AudioService.Player.GetPlayerState` | musify/src/services/audioServices.ts:45-56 | The state read back satisfies the invariant whenever the stored one does. With something stored it is exactly that state. With nothing stored it is exactly the default: idle, with an empty queue, time 0 and volume 1. |
| `AudioService.Player.InitAudio` | musify/src/services/audioServices.ts:23-43 | Afterwards there is exactly one element. It is the existing one if there was one, otherwise a new element with default properties. |
| `AudioService.Player.SavePlayerState` | musify/src/services/audioServices.ts:58-64 | Storage holds the saved state, and reading back returns exactly it. |
| `AudioService.Player.AddEventListener` | musify/src/services/audioServices.ts:66-73 | The callback is appended to its event's list. Every other list is unchanged. |
| `AudioService.Player.RemoveEventListener` | musify/src/services/audioServices.ts:75-82 | Every occurrence of the callback leaves its event's list and the others keep their order. Other lists are unchanged. |
| `AudioService.Player.NotifyListeners` | musify/src/services/audioServices.ts:84-89 | Each listener of the event is called once, in list order, with the stored state. Nothing else changes. |
| `AudioService.Player.PlayTrack` | musify/src/services/audioServices.ts:91-110 | The track is current and playing and the queue is unchanged. The state is saved before notification. The element plays the preview from 0 at the stored volume. Listeners get trackChange and then play, both with the saved state. |
| `AudioService.Player.QueueTrack` | musify/src/services/audioServices.ts:112-128 | The returned item holds the track. When idle, it behaves as PlayTrack with the queue unchanged. Otherwise it appends the item, leaves the element alone and notifies queueUpdate. |
| `AudioService.Player.ForceQueueTrack` | musify/src/services/audioServices.ts:130-143 | The item is always appended and nothing else in the state changes. The element is untouched and queueUpdate is notified. |
| `AudioService.Player.TogglePlay` | musify/src/services/audioServices.ts:145-167 | With no track it returns false, and storage, the log and the element are unchanged. Otherwise it flips the playing flag, returns the new value and pauses or plays the element to match. It notifies pause or play with the state from before the save. |
| `AudioService.Player.SkipForward` | musify/src/services/audioServices.ts:169-188 | With no track it returns 0 and changes nothing. Otherwise the result lies in [0, duration] and is the skip-forward target. The element position and the stored time both equal it, and timeUpdate is notified. |
| `AudioService.Player.SkipBackward` | musify/src/services/audioServices.ts:190-205 | With no track it returns 0 and changes nothing. Otherwise the result is non-negative and is stored as the time. The element seeks to it, which is exact for a non-negative argument. timeUpdate is notified. |
| `AudioService.Player.SeekTo` | musify/src/services/audioServices.ts:207-222 | With no track it returns 0 and changes nothing. Otherwise the result is the position clamped to [0, duration]. The element position and the stored time equal it, and timeUpdate is notified. |
| `AudioService.Player.PlayNextTrack` | musify/src/services/audioServices.ts:224-249 | The return value and the new state are those of `AfterNext`. On an empty queue the element pauses at 0 and trackChange is notified. Otherwise the head's preview plays from 0 and trackChange and play are notified. |
| `AudioService.Player.PlayPreviousTrack` | musify/src/services/audioServices.ts:251-267 | Whatever the position, and even with no track, the element and the stored time go to 0. Everything else is kept, and timeUpdate is notified. |
| `AudioService.Player.SetVolume` | musify/src/services/audioServices.ts:269-280 | It returns the volume clamped to [0, 1]. The element and the stored state both take that volume, and volumeChange is notified. |
| `AudioService.Player.ClearQueue` | musify/src/services/audioServices.ts:282-287 | The queue is emptied. The current track, playing flag, time and volume are kept, and queueUpdate is notified. |
| `AudioService.Player.OnEnded` | musify/src/services/audioServices.ts:27-30 | The end of a track advances as next does, and the state is then stored. Listeners get next's notifications and then end. |
| `AudioService.Player.OnTimeUpdate` | musify/src/services/audioServices.ts:32-39 | The stored time follows the element's new position, and timeUpdate is notified. |
| `Scenarios.PlayFromIdle` | musify/src/services/audioServices.ts:91-110 | From idle, playing a track makes it current and playing. Listeners see trackChange then play with the same snapshot. |
| `Scenarios.QueueWhenIdle` | musify/src/services/audioServices.ts:120-121 | From idle, queueing a track plays it and the queue stays empty. |
| `Scenarios.ForceQueueWhenIdle` | musify/src/services/audioServices.ts:130-143 | From idle, force-queueing leaves nothing playing and exactly one queued item. |
| `Scenarios.QueueInOrder` | musify/src/services/audioServices.ts:112-249 | With a playing, queue b then c. Next returns b, then c, then null, and playback stops. |
| `Scenarios.QueueRunsOut` | musify/src/services/audioServices.ts:227-237 | With an empty queue, next goes idle and the element rewinds to 0, but the stored time stays at 10. |
| `Scenarios.SkipPastEnd` | musify/src/services/audioServices.ts:177-183 | Skipping 9999 seconds forward stops at the end of a 30-second preview, both returned and stored. |
| `Scenarios.UnsubscribeAll` | musify/src/services/audioServices.ts:75-89 | A callback subscribed twice and then removed is no longer called. The remaining one is still called. |

## Left out

- The asynchronous `audio.play()` promise. A play request is always granted. The rejection handler is not modelled: it would later save `isPlaying = false` from a stale snapshot.
- JSON serialisation and storage exceptions. Storage is one `Option<PlayerState>` field; absence and a parse failure both read back as the default. A failing save is not modelled.
- Aliasing of the default queue. `getPlayerState` returns a shallow copy of the default, so its queue array is shared with the default. A forced enqueue while storage is empty therefore also pushes into the default. The model gives every read of the default a fresh empty queue.
- AudioService.Player.SavePlayerState: requires the state to satisfy `Consistent`. Only the engine's own operations call it, and they always do.
- AudioService.Player.constructor: requires a stored state to satisfy `Consistent`. A state written by anything other than this engine is not modelled.
- Floating-point rounding. Times and volumes are exact reals, so a sum such as `current + seconds` is not rounded as a JavaScript double would be.
- NaN values: an unknown duration before metadata loads, and `Math.min`/`Math.max` on NaN. Every duration is a known non-negative number.
- The `typeof window` check in `initAudio`. A window is always present.
- The always-true guards `if (listeners[event])` and `if (audioElement)`. The registry always has every event kind, and the handlers exist only once the element does.
- The unreachable `return null` after a successful `queue.shift()` in `playNextTrack`.
- What a callback does when it is called: its exceptions, or calls back into the engine. A callback is an identifier whose call is recorded.
- The browser's own events. The element may fire `timeupdate`, `pause` or `ended` by itself after a seek or at the end of the media. Only the two registered handlers are modelled, as `OnTimeUpdate` and `OnEnded`, each invoked as one step.
- Track fields beyond id, title, duration and preview: artist, album, cover images, link. The engine reads only `preview`; the other three are kept because they are part of what is stored and delivered.
- The rest of the repository: the React components, the context, hooks and Redux wrappers, the HTTP API client, the OAuth hook and the Express server. Each is either presentation or a pass-through to this engine or to the network.
