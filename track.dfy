/** Track segments: fixed-length floor pieces laid end to end along the forward axis,
    recycled from behind the player to the front. */
module Track {
  import opened Lists
  import opened Trail

  /** Length of every segment (createTrackSegment's segmentLength). */
  const SegmentLength: real := 20.0

  /** Forward extent of the initial track (the constructor's trackLength). */
  const TrackLength: int := 300

  /** Number of segments the initial track is made of: 0, 20, ..., 280. */
  const SegmentCount: nat := 15

  /** A piece of floor starting at `position` and `length` units long. */
  datatype Segment = Segment(position: real, length: real)

  /** The forward position the retirement rule looks at. */
  function StartOf(t: Segment): real
  {
    t.position
  }

  /** Where the `j`-th of a row of standard segments starting at `p` begins. */
  function Offset(p: real, j: int): real
  {
    p + SegmentLength * (j as real)
  }

  /** `k` standard segments laid end to end, the first starting at `p`. */
  function Run(p: real, k: nat): (r: seq<Segment>)
    ensures |r| == k
  {
    if k == 0 then [] else Run(p, k - 1) + [Segment(Offset(p, k - 1), SegmentLength)]
  }

  /** A run of `next` = k + 1 segments is the run of `k` and the segment that starts where it
      ends. */
  lemma RunStep(p: real, k: nat, next: nat)
    requires next == k + 1
    ensures Run(p, next) == Run(p, k) + [Segment(Offset(p, k), SegmentLength)]
  {
  }

  /** `k + 1` segment lengths are `k` of them and one more. */
  lemma LengthStep(k: nat)
    ensures SegmentLength * ((k + 1) as real) == SegmentLength * (k as real) + SegmentLength
  {
  }

  /** On a track laid from 0, the `k`-th segment starts at 20k. */
  lemma OffsetFromOrigin(k: nat)
    ensures Offset(0.0, k) == (20 * k) as real
  {
  }

  /** The initial track: 15 segments of length 20 starting at 0, 20, ..., 280. */
  lemma InitialTrackPositions()
    ensures forall j :: 0 <= j < SegmentCount ==> Run(0.0, SegmentCount)[j] == Segment((20 * j) as real, SegmentLength)
    ensures Frontier(Run(0.0, SegmentCount)) == TrackLength as real
  {
    forall j | 0 <= j < SegmentCount
      ensures Run(0.0, SegmentCount)[j] == Segment((20 * j) as real, SegmentLength)
    {
      RunAt(0.0, SegmentCount, j);
      OffsetFromOrigin(j);
    }
  }

  /** The `j`-th segment of a run starts `j` lengths after the first. */
  lemma {:induction false} RunAt(p: real, k: nat, j: nat)
    requires j < k
    ensures Run(p, k)[j] == Segment(Offset(p, j), SegmentLength)
  {
    if j < k - 1 {
      RunAt(p, k - 1, j);
    }
  }

  /** A run of m followed by the run that starts where it ends is one run of m + l. */
  lemma {:induction false} RunAppend(p: real, m: nat, l: nat)
    ensures Run(p, m) + Run(Offset(p, m), l) == Run(p, m + l)
  {
    if l > 0 {
      RunAppend(p, m, l - 1);
      assert Offset(Offset(p, m), l - 1) == Offset(p, m + l - 1);
      assert Run(Offset(p, m), l) == Run(Offset(p, m), l - 1) + [Segment(Offset(p, m + l - 1), SegmentLength)];
    }
  }

  /** Dropping the first segment of a run leaves the run that starts one length later. */
  lemma RunTail(p: real, k: nat)
    requires k > 0
    ensures Run(p, k) == [Segment(p, SegmentLength)] + Run(p + SegmentLength, k - 1)
  {
    RunAppend(p, 1, k - 1);
    assert Run(p, 1) == [Segment(Offset(p, 0), SegmentLength)];
  }

  /** Where the generated track ends: the end of its last segment (the frontier). */
  function Frontier(s: seq<Segment>): real
  {
    if s == [] then 0.0 else s[|s| - 1].position + s[|s| - 1].length
  }

  /** What updateTrack makes of the segment list when the player is at `z`: the segments that
      are not behind, in order, followed by one fresh segment per retired one, laid from the
      old frontier onwards. */
  function Recycle(s: seq<Segment>, z: real): (r: seq<Segment>)
    ensures |r| == |s|
  {
    Survivors(s, StartOf, z) + Run(Frontier(s), RetiredCount(s, StartOf, z))
  }

  /** On the window `Run(p, n)`, the retired segments are exactly a prefix: the first `k`
      segments are behind the player at `z` and the one after them, if any, is not. */
  ghost predicate RetiresPrefix(p: real, n: nat, z: real)
  {
    var k := RetiredCount(Run(p, n), StartOf, z);
    && k <= n
    && Survivors(Run(p, n), StartOf, z) == Run(Offset(p, k), n - k)
    && (forall j :: 0 <= j < k ==> Behind(Offset(p, j), z))
    && (k < n ==> !Behind(Offset(p, k), z))
  }

  /** Every window of consecutive segments retires a prefix. */
  lemma {:induction false} SurvivorsOfRun(p: real, n: nat, z: real)
    ensures RetiresPrefix(p, n, z)
    decreases n
  {
    if n == 0 {
      assert Run(p, 0) == [];
    } else {
      SurvivorsOfRun(p + SegmentLength, n - 1, z);
      if Behind(p, z) {
        SurvivorsOfRunBehind(p, n, z);
      } else {
        SurvivorsOfRunAhead(p, n, z);
      }
    }
  }

  /** Inductive step of SurvivorsOfRun when the first segment is retired. */
  lemma SurvivorsOfRunBehind(p: real, n: nat, z: real)
    requires n > 0 && Behind(p, z)
    requires RetiresPrefix(p + SegmentLength, n - 1, z)
    ensures RetiresPrefix(p, n, z)
  {
    var q := p + SegmentLength;
    var tail := Run(q, n - 1);
    var k' := RetiredCount(tail, StartOf, z);
    RunTail(p, n);
    var s := Run(p, n);
    assert s[0] == Segment(p, SegmentLength) && s[1..] == tail;
    assert Survivors(s, StartOf, z) == Survivors(tail, StartOf, z);
    assert RetiredCount(s, StartOf, z) == k' + 1;
    assert Offset(q, k') == Offset(p, k' + 1);
    forall j | 0 <= j < k' + 1
      ensures Behind(Offset(p, j), z)
    {
      if j > 0 {
        assert Offset(q, j - 1) == Offset(p, j);
      }
    }
  }

  /** Inductive step of SurvivorsOfRun when the first segment is kept: then so is every later one. */
  lemma SurvivorsOfRunAhead(p: real, n: nat, z: real)
    requires n > 0 && !Behind(p, z)
    requires RetiresPrefix(p + SegmentLength, n - 1, z)
    ensures RetiresPrefix(p, n, z)
    ensures RetiredCount(Run(p, n), StartOf, z) == 0
  {
    var q := p + SegmentLength;
    var tail := Run(q, n - 1);
    var k' := RetiredCount(tail, StartOf, z);
    assert Offset(q, 0) == q;
    assert !Behind(Offset(q, 0), z);
    assert k' == 0;
    assert Survivors(tail, StartOf, z) == tail;
    RunTail(p, n);
    var s := Run(p, n);
    assert s[0] == Segment(p, SegmentLength) && s[1..] == tail;
    assert Survivors(s, StartOf, z) == [s[0]] + tail;
    assert Offset(p, 0) == p;
  }

  /** Recycling a window of `n` consecutive segments (the invariant the game keeps) gives the
      window shifted forward by the `k` retired segments: the count is unchanged, the segments
      stay consecutive with no gap or overlap, the retired ones were exactly the first `k`, and
      unless the player has passed the whole window the track reaches at least `20n - 40` units
      ahead of the player. */
  lemma RecycleWindow(p: real, n: nat, z: real)
    requires n > 0
    ensures var k := RetiredCount(Run(p, n), StartOf, z);
      && k <= n
      && Recycle(Run(p, n), z) == Run(Offset(p, k), n)
      && (forall j :: 0 <= j < k ==> Behind(Run(p, n)[j].position, z))
      && (forall j :: k <= j < n ==> !Behind(Run(p, n)[j].position, z))
      && (k < n ==> Frontier(Recycle(Run(p, n), z)) >= z - TrailingMargin + SegmentLength * (n as real))
  {
    var s := Run(p, n);
    SurvivorsOfRun(p, n, z);
    var k := RetiredCount(s, StartOf, z);
    RunAt(p, n, n - 1);
    assert Frontier(s) == Offset(p, n);
    RunAppend(Offset(p, k), n - k, k);
    assert Offset(Offset(p, k), n - k) == Offset(p, n);
    forall j | 0 <= j < n
      ensures s[j].position == Offset(p, j)
    {
      RunAt(p, n, j);
    }
    if k < n {
      RunAt(Offset(p, k), n, n - 1);
    }
  }

  /** The shape of the track the game keeps: 15 consecutive segments of length 20, with no
      gap or overlap, starting wherever the first one starts. */
  predicate Window(ts: seq<Segment>)
  {
    |ts| == SegmentCount && ts == Run(ts[0].position, SegmentCount)
  }

  /** Recycling keeps the track a window, shifted forward by the number of retired segments. */
  lemma RecycleKeepsWindow(ts: seq<Segment>, z: real)
    requires Window(ts)
    ensures Window(Recycle(ts, z))
    ensures Recycle(ts, z)[0].position == Offset(ts[0].position, RetiredCount(ts, StartOf, z))
  {
    RecycleWindow(ts[0].position, SegmentCount, z);
    RunAt(Offset(ts[0].position, RetiredCount(ts, StartOf, z)), SegmentCount, 0);
  }

  /** The segment list while updateTrack walks `s` from the back and has handled every index
      from `i` on: the unhandled prefix, the handled segments that stay, and one new segment per
      retired one, laid from the old frontier. */
  function Pending(s: seq<Segment>, i: nat, z: real): (r: seq<Segment>)
    requires i <= |s|
    ensures |r| == |s|
  {
    s[..i] + Survivors(s[i..], StartOf, z) + Run(Frontier(s), RetiredCount(s[i..], StartOf, z))
  }

  /** Before the walk the list is untouched; after it, it is recycled. */
  lemma PendingEnds(s: seq<Segment>, z: real)
    ensures Pending(s, |s|, z) == s
    ensures Pending(s, 0, z) == Recycle(s, z)
  {
    assert s[..|s|] == s && s[|s|..] == [];
    assert s[..0] == [] && s[0..] == s;
  }

  /** While index `i` is being handled, the segment at `i` is still in place, and the last
      segment ends one standard length per already retired segment past the old frontier. */
  lemma PendingAt(s: seq<Segment>, i: nat, z: real)
    requires i < |s|
    ensures Pending(s, i + 1, z)[i] == s[i]
    ensures var p := Pending(s, i + 1, z);
      p[|p| - 1].position + p[|p| - 1].length == Offset(Frontier(s), RetiredCount(s[i + 1..], StartOf, z))
  {
    var k := RetiredCount(s[i + 1..], StartOf, z);
    var p := Pending(s, i + 1, z);
    assert p[i] == s[..i + 1][i];
    if k == 0 {
      SurvivorsNoneRetired(s[i + 1..], StartOf, z);
      assert p == s[..i + 1] + s[i + 1..] == s;
    } else {
      RunAt(Frontier(s), k, k - 1);
    }
  }

  /** Handling a retired segment at `i`: pushing the next new segment and splicing out the one
      at `i` gives the list with `i` handled. */
  lemma PendingRetire(s: seq<Segment>, i: nat, z: real)
    requires i < |s| && Behind(s[i].position, z)
    ensures var p := Pending(s, i + 1, z) + [Segment(Offset(Frontier(s), RetiredCount(s[i + 1..], StartOf, z)), SegmentLength)];
      p[..i] + p[i + 1..] == Pending(s, i, z)
  {
    var k := RetiredCount(s[i + 1..], StartOf, z);
    var kept := Survivors(s[i + 1..], StartOf, z);
    var rest := kept + Run(Frontier(s), k + 1);
    PendingPush(s, i, z);
    Splice(s[..i], s[i], rest);
    SurvivorsStep(s, i, StartOf, z);
    Concat3(s[..i], kept, Run(Frontier(s), k + 1));
  }

  /** Pushing the next new segment onto the list while index `i` is being handled. */
  lemma PendingPush(s: seq<Segment>, i: nat, z: real)
    requires i < |s|
    ensures var k := RetiredCount(s[i + 1..], StartOf, z);
      Pending(s, i + 1, z) + [Segment(Offset(Frontier(s), k), SegmentLength)]
        == s[..i] + [s[i]] + (Survivors(s[i + 1..], StartOf, z) + Run(Frontier(s), k + 1))
  {
    var k := RetiredCount(s[i + 1..], StartOf, z);
    var kept := Survivors(s[i + 1..], StartOf, z);
    var laid := Segment(Offset(Frontier(s), k), SegmentLength);
    PrefixStep(s, i);
    Concat3(s[..i + 1] + kept, Run(Frontier(s), k), [laid]);
    Concat3(s[..i + 1], kept, Run(Frontier(s), k + 1));
    Concat3(s[..i], [s[i]], kept + Run(Frontier(s), k + 1));
  }

  /** Handling a segment at `i` that stays changes nothing. */
  lemma PendingKeep(s: seq<Segment>, i: nat, z: real)
    requires i < |s| && !Behind(s[i].position, z)
    ensures Pending(s, i + 1, z) == Pending(s, i, z)
  {
    SurvivorsStep(s, i, StartOf, z);
    PrefixStep(s, i);
    Concat3(s[..i], [s[i]], Survivors(s[i + 1..], StartOf, z));
  }

  /** One step of updateTrack's segment loop at index `i` on the current list `cur`, every
      index from `h` = i + 1 on already handled: the segment at `i` is still the original one,
      the last segment ends where the next laid segment starts, and a segment that is not
      behind is handled by leaving the list alone. */
  lemma RecycleStep(s: seq<Segment>, i: nat, h: nat, z: real, cur: seq<Segment>)
    requires h == i + 1 && h <= |s| && cur == Pending(s, h, z)
    ensures |cur| == |s| && cur[i] == s[i]
    ensures cur[|cur| - 1].position + cur[|cur| - 1].length == Offset(Frontier(s), RetiredCount(s[h..], StartOf, z))
    ensures !Behind(s[i].position, z) ==> cur == Pending(s, i, z)
  {
    PendingAt(s, i, z);
    if !Behind(s[i].position, z) {
      PendingKeep(s, i, z);
    }
  }

  /** A segment at `i` that is behind is handled by pushing a segment where the last one ends
      (`pushed`) and splicing out index `i`. */
  lemma RetireStep(s: seq<Segment>, i: nat, h: nat, z: real, cur: seq<Segment>, pushed: seq<Segment>)
    requires h == i + 1 && h <= |s| && cur == Pending(s, h, z) && Behind(s[i].position, z)
    requires |cur| > 0 && pushed == cur + [Segment(cur[|cur| - 1].position + cur[|cur| - 1].length, SegmentLength)]
    ensures i + 1 <= |pushed| && pushed[..i] + pushed[i + 1..] == Pending(s, i, z)
  {
    PendingAt(s, i, z);
    PendingRetire(s, i, z);
  }
}
