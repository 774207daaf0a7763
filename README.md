# Music card control state, modelled in Dafny

The homepage's music card (`src/components/music-card.tsx`) is a small
player widget. It keeps a cursor into a playlist, a play/pause flag and a
progress percentage. Its `nextSong` and `prevSong` move the cursor with
wrap-around. The audio element's `ended` event advances the track. A
multi-click decoder counts clicks on the card: each click restarts a 300 ms
timer, and when the timer fires a double click means "next", a triple click
means "previous", and any other count does nothing. The `timeupdate` handler
and the seek-by-click handler ignore events while the track has no duration.
The card hides itself off the home page unless music is playing.

The project has three modules:

- `Playlist` (`playlist.dfy`): the cursor moves as functions, over a
  playlist of `n >= 1` tracks. The language's truncating `%` is written out
  as `TruncRem`. Lemmas cover bounds, wrap-around, inverse moves and going
  all the way round.
- `CardState` (`card_state.dfy`): the widget's state as a value (`Card`),
  one `Event` per handler, the transition function `Step`, and its run over a
  sequence of events, `Run`. `Valid` is the invariant every reachable state
  keeps: the cursor names a track, at most one click timer is live, and a
  timer is live exactly when clicks are waiting. Lemmas state the click
  decoder's behaviour over whole bursts of clicks, the toggle, the duration
  guards and the render rule.
- `MusicCardWidget` (`music_card.dfy`): the component as a class. Its
  fields are the React state and refs. Each handler is a method that updates
  them in place and is proved to have exactly the effect `CardState.Step`
  gives its event.

The playlist length is a parameter. The shipped `MUSIC_FILES` has one
entry, where both moves leave the cursor in place
(`ShippedPlaylistMovesAreIdentity`); all other results hold for any length.

The 300 ms timer is an explicit event, `ClickTimerFires`. The timer is
counted as `pendingTimers`: timers that were scheduled and were neither
cleared nor fired. A `ClickTimerFires` with no live timer has no effect,
since no callback exists to run. `handleCardInteraction` is defined in the
source but not attached to any element. It is modelled as written.

`audio.duration` is `Duration`: `Unloaded` stands for the not-a-number value
it holds before metadata loads, `Seconds(d)` for a loaded length, and
`Unbounded` for the positive infinity of a stream with no known end. The
handlers' `if (audio.duration)` test is `HasDuration`; infinity passes it.
Over an infinite duration `timeupdate` sets the bar to 0, and a click on the
bar computes a time that is not finite. Assigning that time to
`currentTime` throws, so the bar is not moved. Reals stand in for the
language's double-precision numbers.

`Step` accepts every event in every state. The play/pause button and the
progress bar are part of the card, so their events can only arrive while
the card is drawn; `Deliverable` states this, and the lemmas about hiding
take it as a hypothesis.

## Model

| member | source | states |
|---|---|---|
| `Playlist.TruncRem` | src/components/music-card.tsx:97 | The `%` operator: the result lies strictly between `-b` and `b`, has the sign of the dividend, and is congruent to it modulo `b`. |
| `Playlist.Next` | src/components/music-card.tsx:92-94 | `nextSong` keeps the cursor in `[0, n)`. It moves to `i + 1` below the last track and wraps from `n - 1` to `0`. |
| `Playlist.Prev` | src/components/music-card.tsx:96-98 | `prevSong` keeps the cursor in `[0, n)`. It moves to `i - 1` above the first track and wraps from `0` to `n - 1`. |
| `Playlist.PrevNextInverse` | src/components/music-card.tsx:92-98 | `prevSong` after `nextSong` restores the track, and so does the reverse order. |
| `Playlist.MovesChangeTrack` | src/components/music-card.tsx:92-98 | Each move leaves the track unchanged exactly when the playlist has one track. |
| `Playlist.AdvanceIsAddition` | src/components/music-card.tsx:92-94 | `k` calls to `nextSong` from `i` land on `(i + k) mod n`. |
| `Playlist.FullCycle` | src/components/music-card.tsx:92-94 | `n` calls to `nextSong` return to the starting track. |
| `Playlist.ShippedPlaylistMovesAreIdentity` | src/components/music-card.tsx:15 | With the shipped single-file playlist both moves keep the only track. |
| `CardState.Step` | src/components/music-card.tsx:92-127 | Every handler keeps the invariant: cursor in range, at most one live timer, and a live timer exactly when the count is non-zero. |
| `CardState.Run` | src/components/music-card.tsx:92-127 | Any sequence of events keeps the invariant. |
| `CardState.HasDuration` | src/components/music-card.tsx:61 | The truthiness of `audio.duration`: false for not-a-number and for 0, true for any other length and for infinity. |
| `CardState.Decode` | src/components/music-card.tsx:120-124 | The timer's dispatch: the gesture is "next" exactly for count 2 and "previous" exactly for count 3; every other count is ignored. |
| `CardState.Apply` | src/components/music-card.tsx:121-123 | "Next" moves as `nextSong`, "previous" as `prevSong`, "ignore" keeps the cursor; the result stays within the playlist. |
| `CardState.InitialValid` | src/components/music-card.tsx:26-34 | The mount state (not playing, track 0, empty bar, no clicks, no timer) satisfies the invariant. |
| `CardState.Reachable` | src/components/music-card.tsx:26-127 | Every state reached from mount by any sequence of events satisfies the invariant. |
| `CardState.EndedActsAsNext` | src/components/music-card.tsx:66 | The `ended` event has exactly the effect of `nextSong` and changes nothing else. |
| `CardState.ClickReplacesTimer` | src/components/music-card.tsx:114-119 | A click raises the count by exactly one, replaces any pending timer so that exactly one is live, and changes nothing else. |
| `CardState.TimerDispatch` | src/components/music-card.tsx:119-126 | When the timer fires, count 2 acts as `nextSong`, count 3 as `prevSong`, and any other count leaves the cursor alone. The count resets to 0, no timer is left, and playback, bar and playhead are unchanged. |
| `CardState.RunClicks` | src/components/music-card.tsx:114-119 | A burst of `k >= 1` clicks adds `k` to the count behind a single live timer. |
| `CardState.BurstThenTimer` | src/components/music-card.tsx:114-127 | From a quiet card, `k` clicks and then the timer move the cursor as the decoded count says. The card is left quiet with everything else as before. |
| `CardState.DoubleAndTripleClick` | src/components/music-card.tsx:119-124 | A double click followed by the timer equals `nextSong`. A triple click followed by the timer equals `prevSong`. |
| `CardState.DoubleThenTripleRestores` | src/components/music-card.tsx:114-127 | A double click, then a triple click, each followed by its timer, restore the original state. |
| `CardState.ToggleFlipsOnlyPlaying` | src/components/music-card.tsx:164 | The play/pause button flips `isPlaying`, changes nothing else, and undoes itself. |
| `CardState.TimeUpdateGuard` | src/components/music-card.tsx:60-64 | `timeupdate` is a no-op while the duration is not a number or zero. Otherwise it changes only the progress. |
| `CardState.SeekGuard` | src/components/music-card.tsx:100-111 | A click on the bar is a no-op without an audio element or a duration. Otherwise it changes only the playhead and the progress. |
| `CardState.ProgressInRange` | src/components/music-card.tsx:60-64 | With a positive duration and a playhead inside the track, the progress is between 0 and 100. |
| `CardState.UnboundedDuration` | src/components/music-card.tsx:60-111 | Over an infinite duration `timeupdate` puts the bar at 0, and a click on the bar changes nothing, because assigning a time that is not finite throws before the bar is set. |
| `CardState.SeekAgreesWithTimeUpdate` | src/components/music-card.tsx:100-111 | A seek to fraction `f` in `[0, 1]` puts the playhead inside the track and the bar in `[0, 100]`. A later `timeupdate` at that playhead leaves the bar where the seek put it. |
| `CardState.Rendered` | src/components/music-card.tsx:129-132 | The card renders nothing exactly when it is off the home page and playback is off. |
| `CardState.VisibilityFollowsToggle` | src/components/music-card.tsx:130-132 | The card is always drawn on the home page. No event except the toggle changes whether it is drawn. Off the home page a toggle of the drawn card hides it. |
| `CardState.HiddenStaysHidden` | src/components/music-card.tsx:130-168 | A hidden card stays hidden under every event that can reach it, since the button and the bar are not drawn. |
| `CardState.HiddenStaysHiddenRun` | src/components/music-card.tsx:130-168 | Once paused off the home page, the card stays hidden through any sequence of events on that page; it cannot be resumed there. |
| `MusicCardWidget.MusicCard.constructor` | src/components/music-card.tsx:26-34 | Mounting yields the initial state, which satisfies the invariant. |
| `MusicCardWidget.MusicCard.NextSong` | src/components/music-card.tsx:92-94 | Updates the cursor in place as `Step` on `NextSong` says, keeping the invariant. |
| `MusicCardWidget.MusicCard.PrevSong` | src/components/music-card.tsx:96-98 | Updates the cursor in place as `Step` on `PrevSong` says, keeping the invariant. |
| `MusicCardWidget.MusicCard.HandleEnded` | src/components/music-card.tsx:66 | The `ended` listener calls `nextSong`, with the effect of `Step` on `Ended`. |
| `MusicCardWidget.MusicCard.HandleCardInteraction` | src/components/music-card.tsx:114-119 | Increments the click counter and replaces the timer in place, as `Step` on `CardClick` says. |
| `MusicCardWidget.MusicCard.FireClickTimer` | src/components/music-card.tsx:119-126 | The timer callback dispatches on the count and resets it, as `Step` on `ClickTimerFires` says. |
| `MusicCardWidget.MusicCard.TogglePlay` | src/components/music-card.tsx:164 | Overwrites `isPlaying` with its negation, as `Step` on `TogglePlay` says. |
| `MusicCardWidget.MusicCard.UpdateProgress` | src/components/music-card.tsx:60-64 | Sets the progress to `currentTime / duration * 100` (0 for an infinite duration) only when the duration is truthy, as `Step` on `TimeUpdate` says. |
| `MusicCardWidget.MusicCard.HandleProgressClick` | src/components/music-card.tsx:100-111 | Sets the playhead and the bar from the click fraction only when audio and a finite non-zero duration exist, as `Step` on `ProgressClick` says. |
| `MusicCardWidget.MusicCard.Renders` | src/components/music-card.tsx:129-132 | Returns the render decision `Rendered` gives for the path and the play state. |
| `MusicCardWidget.MusicCard.TrackSource` | src/components/music-card.tsx:80 | The effect's lookup `MUSIC_FILES[currentIndex]` is always within the playlist. |
| `MusicCardWidget.DoubleThenTripleClick` | src/components/music-card.tsx:114-127 | On the component, a double click and then a triple click, each with its timer, leave the state as it was. |

## Left out

- The audio element itself: `play()` and its promise, `pause()`, assigning `src`, and how `currentTime` and `duration` evolve during playback. These are platform media I/O. The playhead and duration enter the model as event parameters.
- The React effects that sync the audio element with `currentIndex` and `isPlaying` (src/components/music-card.tsx:56-88), and React's render scheduling. With the shipped one-file playlist, `ended` leaves `currentIndex` at 0. React then skips the track-change effect, so the track is not reloaded while `isPlaying` stays true. The model does not capture this, because effects are not modelled.
- Real time: the 300 ms delay of the click timer. Only the order of clicks and timer expiries is modelled, so how fast a user must click is not captured.
- Floating-point arithmetic: reals stand in for doubles, so rounding in `currentTime / duration * 100` is not modelled. Of the non-finite values only an infinite duration is modelled; the playhead passed to `timeupdate` is taken to be finite.
- The error that an infinite seek time raises is modelled only as the handler stopping; how React reports it is not modelled.
- Click geometry: `getBoundingClientRect`, `clientX` and the division by the bar's width (src/components/music-card.tsx:104-107). `HandleProgressClick` takes the resulting fraction as its input.
- The card's screen position (src/components/music-card.tsx:38-52). It is pixel arithmetic over values from stores that are not part of this model.
- JSX rendering, `Card`, `HomeDraggableLayer`, icons and the holiday decoration images. Only the decision to render or return `null` is modelled.
- `Playlist.Next`, `Playlist.Prev`: require a non-empty playlist. The source's playlist is a non-empty constant; with an empty one the `%` would produce not-a-number.
- `src/layout/backgrounds/snowfall.tsx` is not part of this model. Its values all come from a random source as floating-point ranges fed to an animation library.
