/** The playlist cursor of the music card: which track `currentIndex` names,
    and how `nextSong` and `prevSong` move it around a playlist of `n` tracks. */
module Playlist {

  /** The shipped playlist: a single file. */
  const MusicFiles: seq<string> := ["/music/close-to-you.mp3"]

  /** The remainder operator of the widget's language: it truncates toward
      zero, so the result has the sign of the dividend (unlike Dafny's `%`,
      which is never negative). */
  function TruncRem(a: int, b: int): (r: int)
    requires b > 0
    ensures -b < r < b
    ensures a >= 0 ==> r >= 0
    ensures a <= 0 ==> r <= 0
    ensures (a - r) % b == 0
  {
    if a >= 0 then
      var q, m := a / b, a % b;
      assert a == q * b + m;
      ModUnique(a - m, b, q, 0);
      m
    else
      var q, m := (-a) / b, (-a) % b;
      assert -a == q * b + m;
      assert (-q) * b == -(q * b);
      ModUnique(a + m, b, -q, 0);
      -m
  }

  /** `nextSong`: the track after `i`, wrapping from the last track to the first. */
  function Next(i: nat, n: nat): (r: nat)
    requires n >= 1
    ensures r < n
    ensures i + 1 < n ==> r == i + 1
    ensures i + 1 == n ==> r == 0
  {
    TruncRem(i + 1, n)
  }

  /** `prevSong`: the track before `i`, wrapping from the first track to the last. */
  function Prev(i: nat, n: nat): (r: nat)
    requires n >= 1
    ensures r < n
    ensures 0 < i < n ==> r == i - 1
    ensures i == 0 ==> r == n - 1
  {
    TruncRem(i - 1 + n, n)
  }

  /** Going back after going forward returns to the same track, and so does
      the reverse order. */
  lemma PrevNextInverse(i: nat, n: nat)
    requires i < n
    ensures Prev(Next(i, n), n) == i
    ensures Next(Prev(i, n), n) == i
  {
  }

  /** Each move changes the track exactly when the playlist has more than one. */
  lemma MovesChangeTrack(i: nat, n: nat)
    requires i < n
    ensures Next(i, n) == i <==> n == 1
    ensures Prev(i, n) == i <==> n == 1
  {
  }

  /** The index after `k` successive calls to `nextSong` from `i`. */
  function Advance(i: nat, k: nat, n: nat): (r: nat)
    requires n >= 1
    ensures r < n || (k == 0 && r == i)
    decreases k
  {
    if k == 0 then i else Next(Advance(i, k - 1, n), n)
  }

  /** `x % n` fixed by the division identity: the quotient and remainder are unique. */
  lemma {:induction false} ModUnique(x: int, n: int, q: int, m: int)
    requires n >= 1 && 0 <= m < n && x == q * n + m
    ensures x % n == m
  {
    var q', m' := x / n, x % n;
    assert x == q' * n + m';
    assert (q - q') * n == m' - m;
    if q - q' >= 1 {
      MulAtLeast(q - q', n);
      assert false;
    } else if q' - q >= 1 {
      MulAtLeast(q' - q, n);
      assert false;
    }
  }

  /** A positive multiple of `n` is at least `n`. */
  lemma {:induction false} MulAtLeast(k: int, n: int)
    requires k >= 1 && n >= 0
    ensures k * n >= n
  {
    if k > 1 {
      MulAtLeast(k - 1, n);
      assert k * n == (k - 1) * n + n;
    }
  }

  /** One step of `nextSong` is `+ 1` modulo the playlist length. */
  lemma {:induction false} NextMod(x: nat, n: nat)
    requires n >= 1
    ensures Next(x % n, n) == (x + 1) % n
  {
    var q, m := x / n, x % n;
    assert x == q * n + m;
    if m + 1 < n {
      ModUnique(x + 1, n, q, m + 1);
    } else {
      assert x + 1 == (q + 1) * n + 0;
      ModUnique(x + 1, n, q + 1, 0);
    }
  }

  /** `k` calls to `nextSong` move the cursor `k` places around the playlist. */
  lemma {:induction false} AdvanceIsAddition(i: nat, k: nat, n: nat)
    requires i < n
    ensures Advance(i, k, n) == (i + k) % n
  {
    if k == 0 {
      ModUnique(i, n, 0, i);
    } else {
      AdvanceIsAddition(i, k - 1, n);
      NextMod(i + k - 1, n);
    }
  }

  /** Calling `nextSong` once per track brings the cursor back where it started. */
  lemma {:induction false} FullCycle(i: nat, n: nat)
    requires i < n
    ensures Advance(i, n, n) == i
  {
    AdvanceIsAddition(i, n, n);
    ModUnique(i + n, n, 1, i);
  }

  /** With the shipped single-file playlist both moves keep the only track. */
  lemma ShippedPlaylistMovesAreIdentity(i: nat)
    requires i < |MusicFiles|
    ensures Next(i, |MusicFiles|) == i && Prev(i, |MusicFiles|) == i
  {
  }
}
