/** The music card component as an object: its React state and refs are
    fields, and each handler is a method that updates them in place. Every
    method is specified by the event it handles in `CardState.Step`, so the
    properties proved there hold of the component. */
module MusicCardWidget {
  import Playlist
  import CardState

  class MusicCard {
    /** `MUSIC_FILES.length`. */
    const tracks: nat
    /** `useState` slots. */
    var isPlaying: bool
    var currentIndex: nat
    var progress: real
    /** `clickCountRef.current`. */
    var clickCount: nat
    /** Click timers scheduled through `clickTimerRef` and neither cleared nor fired. */
    var pendingTimers: nat
    /** `audio.currentTime` as the seek handler sets it. */
    var currentTime: real

    /** The component's state as a value. */
    function State(): (c: CardState.Card)
      reads this
      ensures c.currentIndex == currentIndex && c.clickCount == clickCount
    {
      CardState.Card(isPlaying, currentIndex, progress, clickCount, pendingTimers, currentTime)
    }

    ghost predicate Valid()
      reads this
    {
      tracks >= 1 && CardState.Valid(State(), tracks)
    }

    /** Mounting: nothing playing, first track, empty bar, no clicks. */
    constructor (tracks: nat)
      requires tracks >= 1
      ensures Valid() && this.tracks == tracks
      ensures State() == CardState.Initial
    {
      this.tracks := tracks;
      isPlaying, currentIndex, progress := false, 0, 0.0;
      clickCount, pendingTimers, currentTime := 0, 0, 0.0;
    }

    /** `nextSong`. */
    method NextSong()
      requires Valid()
      modifies this
      ensures Valid()
      ensures State() == CardState.Step(old(State()), CardState.NextSong, tracks)
    {
      currentIndex := Playlist.Next(currentIndex, tracks);
    }

    /** `prevSong`. */
    method PrevSong()
      requires Valid()
      modifies this
      ensures Valid()
      ensures State() == CardState.Step(old(State()), CardState.PrevSong, tracks)
    {
      currentIndex := Playlist.Prev(currentIndex, tracks);
    }

    /** `handleEnded`, the listener for the audio element's `ended` event. */
    method HandleEnded()
      requires Valid()
      modifies this
      ensures Valid()
      ensures State() == CardState.Step(old(State()), CardState.Ended, tracks)
    {
      NextSong();
    }

    /** `handleCardInteraction`: count the click, clear the pending timer and
        schedule a fresh one. */
    method HandleCardInteraction()
      requires Valid()
      modifies this
      ensures Valid()
      ensures State() == CardState.Step(old(State()), CardState.CardClick, tracks)
    {
      clickCount := clickCount + 1;
      if pendingTimers > 0 {
        pendingTimers := pendingTimers - 1;
      }
      pendingTimers := pendingTimers + 1;
    }

    /** The callback of the click timer: dispatch on the count, then reset it. */
    method FireClickTimer()
      requires Valid()
      modifies this
      ensures Valid()
      ensures State() == CardState.Step(old(State()), CardState.ClickTimerFires, tracks)
    {
      if pendingTimers == 0 {
        return;
      }
      if clickCount == 2 {
        NextSong();
      } else if clickCount == 3 {
        PrevSong();
      }
      clickCount := 0;
      pendingTimers := pendingTimers - 1;
    }

    /** The play/pause button. */
    method TogglePlay()
      requires Valid()
      modifies this
      ensures Valid()
      ensures State() == CardState.Step(old(State()), CardState.TogglePlay, tracks)
    {
      isPlaying := !isPlaying;
    }

    /** `updateProgress`, the listener for `timeupdate`. */
    method UpdateProgress(time: real, duration: CardState.Duration)
      requires Valid()
      modifies this
      ensures Valid()
      ensures State() == CardState.Step(old(State()), CardState.TimeUpdate(time, duration), tracks)
    {
      if CardState.HasDuration(duration) {
        if duration.Unbounded? {
          progress := 0.0;
        } else {
          progress := time / duration.s * 100.0;
        }
      }
    }

    /** `handleProgressClick`, given where on the bar the click landed as a
        fraction of its width. */
    method HandleProgressClick(fraction: real, audioPresent: bool, duration: CardState.Duration)
      requires Valid()
      modifies this
      ensures Valid()
      ensures State() == CardState.Step(old(State()), CardState.ProgressClick(fraction, audioPresent, duration), tracks)
    {
      if !audioPresent || !CardState.HasDuration(duration) {
        return;
      }
      if duration.Unbounded? {
        return;  // assigning a time that is not finite throws
      }
      currentTime := fraction * duration.s;
      progress := fraction * 100.0;
    }

    /** The render decision: whether the component returns its card or `null`. */
    method Renders(pathname: string) returns (shown: bool)
      ensures shown == CardState.Rendered(pathname, isPlaying)
    {
      var isHomePage := pathname == "/";
      if !isHomePage && !isPlaying {
        return false;
      }
      return true;
    }

    /** The file the track-change effect loads: `MUSIC_FILES[currentIndex]`,
        always within the playlist. */
    method TrackSource(files: seq<string>) returns (src: string)
      requires Valid() && |files| == tracks
      ensures currentIndex < |files| && src == files[currentIndex]
    {
      src := files[currentIndex];
    }
  }

  /** A double click followed, after the timer, by a triple click leaves the
      component on the track it started on, with no click pending. */
  method DoubleThenTripleClick(card: MusicCard)
    requires card.Valid() && card.clickCount == 0
    modifies card
    ensures card.Valid() && card.State() == old(card.State())
  {
    ghost var start := card.State();
    card.HandleCardInteraction();
    card.HandleCardInteraction();
    card.FireClickTimer();
    card.HandleCardInteraction();
    card.HandleCardInteraction();
    card.HandleCardInteraction();
    card.FireClickTimer();
    CardState.DoubleThenTripleRestores(start, card.tracks);
    assert CardState.Clicks(2) + [CardState.ClickTimerFires] + CardState.Clicks(3) + [CardState.ClickTimerFires]
        == [CardState.CardClick, CardState.CardClick, CardState.ClickTimerFires,
            CardState.CardClick, CardState.CardClick, CardState.CardClick, CardState.ClickTimerFires];
  }
}
