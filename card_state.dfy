/** The music card's control state as a value, and the effect of each event
    the widget handles on it: the playlist buttons and the `ended` event, the
    multi-click decoder with its 300 ms timer, the play/pause toggle, and the
    two progress handlers with their duration guards. */
module CardState {
  import Playlist

  /** `audio.duration`: not a number until the track's metadata has loaded,
      then a length in seconds, or positive infinity for a stream with no
      known end. */
  datatype Duration = Unloaded | Seconds(s: real) | Unbounded

  /** The truthiness test the progress handlers apply to `audio.duration`:
      false while it is not a number and when it is zero, true for any other
      length and for infinity. */
  function HasDuration(d: Duration): (truthy: bool)
    ensures d == Unloaded ==> !truthy
    ensures d == Seconds(0.0) ==> !truthy
    ensures d == Unbounded ==> truthy
    ensures d.Seconds? && d.s != 0.0 ==> truthy
  {
    d.Unbounded? || (d.Seconds? && d.s != 0.0)
  }

  /** The events the widget reacts to. `ClickTimerFires` is the expiry of the
      300 ms timer that `handleCardInteraction` schedules; real time is not
      modelled, only the order of events. */
  datatype Event =
    | NextSong
    | PrevSong
    | Ended
    | CardClick
    | ClickTimerFires
    | TogglePlay
    | TimeUpdate(currentTime: real, duration: Duration)
    | ProgressClick(fraction: real, audioPresent: bool, duration: Duration)

  /** What a finished burst of clicks asks for. */
  datatype Gesture = Forward | Backward | Ignore

  /** The state the widget keeps: its React state (`isPlaying`,
      `currentIndex`, `progress`), its click counter ref, the number of
      live timers it has scheduled and not cancelled, and the playhead
      `audio.currentTime` as the seek handler last wrote it. */
  datatype Card = Card(
    isPlaying: bool,
    currentIndex: nat,
    progress: real,
    clickCount: nat,
    pendingTimers: nat,
    currentTime: real)

  /** The state on mount. */
  const Initial: Card := Card(false, 0, 0.0, 0, 0, 0.0)

  /** What every reachable state satisfies for a playlist of `n` tracks: the
      cursor names a track, at most one click timer is live, and a timer is
      live exactly when clicks are waiting to be decoded. */
  predicate Valid(c: Card, n: nat)
  {
    c.currentIndex < n &&
    c.pendingTimers <= 1 &&
    (c.clickCount == 0 <==> c.pendingTimers == 0)
  }

  /** The timer callback's dispatch on the number of clicks it sees. */
  function Decode(count: nat): (g: Gesture)
    ensures g == Forward <==> count == 2
    ensures g == Backward <==> count == 3
  {
    if count == 2 then Forward
    else if count == 3 then Backward
    else Ignore
  }

  /** The cursor move a gesture calls for. */
  function Apply(g: Gesture, i: nat, n: nat): (r: nat)
    requires n >= 1
    ensures i < n ==> r < n
  {
    match g
    case Forward => Playlist.Next(i, n)
    case Backward => Playlist.Prev(i, n)
    case Ignore => i
  }

  /** The state after one event, for a playlist of `n` tracks. */
  function Step(c: Card, e: Event, n: nat): (r: Card)
    requires n >= 1
    ensures Valid(c, n) ==> Valid(r, n)
  {
    match e
    case NextSong => c.(currentIndex := Playlist.Next(c.currentIndex, n))
    case PrevSong => c.(currentIndex := Playlist.Prev(c.currentIndex, n))
    case Ended => c.(currentIndex := Playlist.Next(c.currentIndex, n))  // `handleEnded` calls `nextSong`
    case CardClick =>
      // clear the timer the ref holds, if it is still live, then schedule a new one
      var live := if c.pendingTimers > 0 then c.pendingTimers - 1 else 0;
      c.(clickCount := c.clickCount + 1, pendingTimers := live + 1)
    case ClickTimerFires =>
      if c.pendingTimers == 0 then c  // no callback is scheduled
      else c.(currentIndex := Apply(Decode(c.clickCount), c.currentIndex, n),
               clickCount := 0,
               pendingTimers := c.pendingTimers - 1)
    case TogglePlay => c.(isPlaying := !c.isPlaying)
    case TimeUpdate(t, d) =>
      if !HasDuration(d) then c
      else if d.Unbounded? then c.(progress := 0.0)  // a finite time over infinity
      else c.(progress := t / d.s * 100.0)
    case ProgressClick(f, present, d) =>
      if !present || !HasDuration(d) then c
      // over an infinite duration the new time is not finite, and assigning
      // it to `currentTime` throws before the bar is updated
      else if d.Unbounded? then c
      else c.(currentTime := f * d.s, progress := f * 100.0)
  }

  /** The state after a sequence of events, in order. */
  function Run(c: Card, events: seq<Event>, n: nat): (r: Card)
    requires n >= 1
    ensures Valid(c, n) ==> Valid(r, n)
    decreases |events|
  {
    if events == [] then c
    else Run(Step(c, events[0], n), events[1..], n)
  }

  /** The state on mount satisfies the invariant. */
  lemma InitialValid(n: nat)
    requires n >= 1
    ensures Valid(Initial, n)
  {
  }

  /** Every state reachable from mount satisfies the invariant. */
  lemma Reachable(events: seq<Event>, n: nat)
    requires n >= 1
    ensures Valid(Run(Initial, events, n), n)
  {
    InitialValid(n);
  }

  /** Running two sequences one after the other is running their concatenation. */
  lemma {:induction false} RunAppend(c: Card, a: seq<Event>, b: seq<Event>, n: nat)
    requires n >= 1
    ensures Run(c, a + b, n) == Run(Run(c, a, n), b, n)
    decreases |a|
  {
    if a == [] {
      assert a + b == b;
    } else {
      assert (a + b)[0] == a[0];
      assert (a + b)[1..] == a[1..] + b;
      RunAppend(Step(c, a[0], n), a[1..], b, n);
    }
  }

  /** The `ended` event moves the cursor exactly as `nextSong` does, and
      touches nothing else. */
  lemma EndedActsAsNext(c: Card, n: nat)
    requires n >= 1
    ensures Step(c, Ended, n) == Step(c, NextSong, n)
    ensures Step(c, Ended, n) == c.(currentIndex := Playlist.Next(c.currentIndex, n))
  {
  }

  /** A click raises the count by exactly one and leaves exactly one live
      timer, replacing the one that was pending; nothing else changes. */
  lemma ClickReplacesTimer(c: Card, n: nat)
    requires n >= 1 && Valid(c, n)
    ensures Step(c, CardClick, n) == c.(clickCount := c.clickCount + 1, pendingTimers := 1)
  {
  }

  /** When the timer fires, two clicks act as `nextSong`, three as
      `prevSong`, and any other count leaves the cursor alone; the count is
      reset to zero and no timer is left. */
  lemma TimerDispatch(c: Card, n: nat)
    requires n >= 1 && Valid(c, n) && c.pendingTimers == 1
    ensures var r := Step(c, ClickTimerFires, n);
      r.clickCount == 0 && r.pendingTimers == 0 &&
      r.isPlaying == c.isPlaying && r.progress == c.progress && r.currentTime == c.currentTime &&
      (c.clickCount == 2 ==> r.currentIndex == Playlist.Next(c.currentIndex, n)) &&
      (c.clickCount == 3 ==> r.currentIndex == Playlist.Prev(c.currentIndex, n)) &&
      (c.clickCount != 2 && c.clickCount != 3 ==> r.currentIndex == c.currentIndex)
  {
  }

  /** `k` clicks in a row. */
  function Clicks(k: nat): (s: seq<Event>)
    ensures |s| == k && forall j :: 0 <= j < k ==> s[j] == CardClick
  {
    seq(k, _ => CardClick)
  }

  /** A burst of `k >= 1` clicks accumulates `k` in the counter behind a
      single live timer. */
  lemma {:induction false} RunClicks(c: Card, k: nat, n: nat)
    requires n >= 1 && Valid(c, n) && k >= 1
    ensures Run(c, Clicks(k), n) == c.(clickCount := c.clickCount + k, pendingTimers := 1)
    decreases k
  {
    var c1 := Step(c, CardClick, n);
    ClickReplacesTimer(c, n);
    assert Clicks(k)[1..] == Clicks(k - 1);
    if k > 1 {
      RunClicks(c1, k - 1, n);
    }
  }

  /** A burst of `k` clicks from a quiet card, followed by the timer, moves
      the cursor as the decoded gesture says and leaves the card quiet again
      with everything else as it was. */
  lemma {:induction false} BurstThenTimer(c: Card, k: nat, n: nat)
    requires n >= 1 && Valid(c, n) && c.clickCount == 0 && k >= 1
    ensures Run(c, Clicks(k) + [ClickTimerFires], n) ==
            c.(currentIndex := Apply(Decode(k), c.currentIndex, n))
  {
    RunAppend(c, Clicks(k), [ClickTimerFires], n);
    RunClicks(c, k, n);
  }

  /** A double click is `nextSong`, a triple click is `prevSong`. */
  lemma {:induction false} DoubleAndTripleClick(c: Card, n: nat)
    requires n >= 1 && Valid(c, n) && c.clickCount == 0
    ensures Run(c, [CardClick, CardClick, ClickTimerFires], n) == Step(c, NextSong, n)
    ensures Run(c, [CardClick, CardClick, CardClick, ClickTimerFires], n) == Step(c, PrevSong, n)
  {
    BurstThenTimer(c, 2, n);
    assert Clicks(2) + [ClickTimerFires] == [CardClick, CardClick, ClickTimerFires];
    BurstThenTimer(c, 3, n);
    assert Clicks(3) + [ClickTimerFires] == [CardClick, CardClick, CardClick, ClickTimerFires];
  }

  /** A double click followed by a triple click returns to the track the
      card started on. */
  lemma {:induction false} DoubleThenTripleRestores(c: Card, n: nat)
    requires n >= 1 && Valid(c, n) && c.clickCount == 0
    ensures Run(c, Clicks(2) + [ClickTimerFires] + Clicks(3) + [ClickTimerFires], n) == c
  {
    var mid := Run(c, Clicks(2) + [ClickTimerFires], n);
    BurstThenTimer(c, 2, n);
    RunAppend(c, Clicks(2) + [ClickTimerFires], Clicks(3) + [ClickTimerFires], n);
    assert Clicks(2) + [ClickTimerFires] + Clicks(3) + [ClickTimerFires]
        == (Clicks(2) + [ClickTimerFires]) + (Clicks(3) + [ClickTimerFires]);
    BurstThenTimer(mid, 3, n);
    Playlist.PrevNextInverse(c.currentIndex, n);
  }

  /** Toggling flips `isPlaying`, changes nothing else, and undoes itself. */
  lemma ToggleFlipsOnlyPlaying(c: Card, n: nat)
    requires n >= 1
    ensures Step(c, TogglePlay, n) == c.(isPlaying := !c.isPlaying)
    ensures Step(Step(c, TogglePlay, n), TogglePlay, n) == c
  {
  }

  /** A `timeupdate` does nothing while the duration is not a number or zero. */
  lemma TimeUpdateGuard(c: Card, t: real, d: Duration, n: nat)
    requires n >= 1
    ensures !HasDuration(d) ==> Step(c, TimeUpdate(t, d), n) == c
    ensures HasDuration(d) ==> Step(c, TimeUpdate(t, d), n).(progress := c.progress) == c
  {
  }

  /** A click on the bar does nothing without an audio element or while the
      duration is not a number or zero; otherwise it moves only the playhead
      and the bar. */
  lemma SeekGuard(c: Card, f: real, present: bool, d: Duration, n: nat)
    requires n >= 1
    ensures !present || !HasDuration(d) ==> Step(c, ProgressClick(f, present, d), n) == c
    ensures present && HasDuration(d) ==>
      Step(c, ProgressClick(f, present, d), n).(progress := c.progress, currentTime := c.currentTime) == c
  {
  }

  /** With a positive duration and a playhead inside the track, the progress
      bar stays within 0 to 100 percent. */
  lemma ProgressInRange(c: Card, t: real, d: real, n: nat)
    requires n >= 1 && d > 0.0 && 0.0 <= t <= d
    ensures var r := Step(c, TimeUpdate(t, Seconds(d)), n);
      0.0 <= r.progress <= 100.0
  {
    assert t / d <= 1.0;
  }

  /** Over a stream with no known end the bar sits at 0, and a click on it
      changes nothing, because the seek throws. */
  lemma UnboundedDuration(c: Card, t: real, f: real, n: nat)
    requires n >= 1
    ensures Step(c, TimeUpdate(t, Unbounded), n) == c.(progress := 0.0)
    ensures Step(c, ProgressClick(f, true, Unbounded), n) == c
  {
  }

  /** A seek to a fraction of the bar sets the playhead to that fraction of
      the track, within the track, and the bar to the same point that a
      later `timeupdate` at the new playhead would show. */
  lemma SeekAgreesWithTimeUpdate(c: Card, f: real, d: real, n: nat)
    requires n >= 1 && d > 0.0 && 0.0 <= f <= 1.0
    ensures var r := Step(c, ProgressClick(f, true, Seconds(d)), n);
      0.0 <= r.currentTime <= d &&
      0.0 <= r.progress <= 100.0 &&
      Step(r, TimeUpdate(r.currentTime, Seconds(d)), n) == r
  {
    assert 0.0 <= (1.0 - f) * d == d - f * d;
    assert f * d / d == f;
  }

  /** The render rule: the card is drawn on the home page, and elsewhere
      only while music is playing. */
  function Rendered(pathname: string, isPlaying: bool): (shown: bool)
    ensures !shown <==> pathname != "/" && !isPlaying
  {
    pathname == "/" || isPlaying
  }

  /** Only the play/pause toggle changes whether the card is drawn: on the
      home page it always is, and elsewhere a toggle of a drawn card hides
      it. */
  lemma VisibilityFollowsToggle(c: Card, e: Event, pathname: string, n: nat)
    requires n >= 1
    ensures pathname == "/" ==> Rendered(pathname, Step(c, e, n).isPlaying)
    ensures e != TogglePlay ==> Rendered(pathname, Step(c, e, n).isPlaying) == Rendered(pathname, c.isPlaying)
    ensures e == TogglePlay && pathname != "/" ==>
      Rendered(pathname, Step(c, e, n).isPlaying) != Rendered(pathname, c.isPlaying)
  {
  }

  /** Whether event `e` can reach the card at all: the play/pause button and
      the progress bar are part of the card, so their events arrive only
      while it is drawn. The other events come from the audio element, the
      card's own timer and its handlers. */
  predicate Deliverable(c: Card, e: Event, pathname: string)
  {
    (e.TogglePlay? || e.ProgressClick?) ==> Rendered(pathname, c.isPlaying)
  }

  /** Whether every event of a sequence can reach the card when it arrives. */
  predicate AllDeliverable(c: Card, events: seq<Event>, pathname: string, n: nat)
    requires n >= 1
    decreases |events|
  {
    events == [] ||
    (Deliverable(c, events[0], pathname) &&
     AllDeliverable(Step(c, events[0], n), events[1..], pathname, n))
  }

  /** A hidden card stays hidden under any event that can reach it. */
  lemma HiddenStaysHidden(c: Card, e: Event, pathname: string, n: nat)
    requires n >= 1 && !Rendered(pathname, c.isPlaying) && Deliverable(c, e, pathname)
    ensures !Rendered(pathname, Step(c, e, n).isPlaying)
  {
  }

  /** Once paused off the home page, the card stays hidden whatever happens
      on that page: it cannot be resumed until the user goes home. */
  lemma {:induction false} HiddenStaysHiddenRun(c: Card, events: seq<Event>, pathname: string, n: nat)
    requires n >= 1 && !Rendered(pathname, c.isPlaying)
    requires AllDeliverable(c, events, pathname, n)
    ensures !Rendered(pathname, Run(c, events, n).isPlaying)
    decreases |events|
  {
    if events != [] {
      HiddenStaysHidden(c, events[0], pathname, n);
      HiddenStaysHiddenRun(Step(c, events[0], n), events[1..], pathname, n);
    }
  }
}
