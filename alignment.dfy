/**
 * The alignment engine: nearest-neighbour voting of clip frames against the
 * frames of a reference (studio) embedding.
 *
 * `cdist` -> `argmin(axis=1)` -> `bincount` -> `argmax` -> `int(ts[..])`
 * becomes DistanceMatrix -> BestPerFrame -> BinCount -> ArgMax -> Trunc.
 */
module Alignment {
  import opened Outcomes

  /**
   * An embedding as the extractor returns it: `frames` holds one vector of
   * length `dim` per frame and `timestamps` the time of each frame in seconds.
   * Vector components are integers (a fixed-point reading of the float32
   * values); only the order of distances matters to the engine.
   */
  datatype EmbeddingSequence = EmbeddingSequence(dim: nat, frames: seq<seq<int>>, timestamps: seq<real>)
  {
    predicate Valid() {
      |frames| == |timestamps| && forall i :: 0 <= i < |frames| ==> |frames[i]| == dim
    }
  }

  /** The two arrays of an embedding are numpy arrays, so they are rectangular and parallel. */
  type Embedding = e: EmbeddingSequence | e.Valid() witness EmbeddingSequence(0, [], [])

  /** The exceptions `cdist`, `argmin` and `argmax` raise on the inputs they refuse. */
  datatype AlignError = DimensionMismatch | EmptyReference | EmptyClip

  /** The winning reference frame and the second reported for it. */
  datatype AlignmentResult = AlignmentResult(frame: nat, second: int)

  // ---------------------------------------------------------------- distances

  function Square(t: int): (r: nat)
    ensures r == 0 <==> t == 0
  {
    if t >= 0 then
      assert t == 0 || t * t >= t;
      t * t
    else
      assert (-t) * (-t) >= -t;
      (-t) * (-t)
  }

  /** Squared Euclidean distance; it orders frames exactly as the Euclidean distance does. */
  function SqDist(u: seq<int>, v: seq<int>): (d: nat)
    requires |u| == |v|
    ensures d == 0 <==> u == v
  {
    if |u| == 0 then 0
    else
      assert u == [u[0]] + u[1..] && v == [v[0]] + v[1..];
      Square(u[0] - v[0]) + SqDist(u[1..], v[1..])
  }

  predicate Rectangular(m: seq<seq<int>>, width: nat) {
    forall i :: 0 <= i < |m| ==> |m[i]| == width
  }

  /** `cdist(emb_clip, emb_song)`: row i, column j is the distance of clip frame i to reference frame j. */
  function DistanceMatrix(clip: Embedding, song: Embedding): (m: seq<seq<int>>)
    requires clip.dim == song.dim
    ensures |m| == |clip.frames| && Rectangular(m, |song.frames|)
    ensures forall i, j :: 0 <= i < |m| && 0 <= j < |song.frames| ==>
              m[i][j] == SqDist(clip.frames[i], song.frames[j])
  {
    seq(|clip.frames|, i requires 0 <= i < |clip.frames| =>
      seq(|song.frames|, j requires 0 <= j < |song.frames| =>
        SqDist(clip.frames[i], song.frames[j])))
  }

  // ------------------------------------------------------------------ argmin

  /** `k` is the lowest index of a minimal entry of `row` (numpy's argmin). */
  predicate IsFirstMin(row: seq<int>, k: int) {
    && 0 <= k < |row|
    && (forall j :: 0 <= j < |row| ==> row[k] <= row[j])
    && (forall j :: 0 <= j < k ==> row[k] < row[j])
  }

  lemma FirstMinUnique(row: seq<int>, k1: int, k2: int)
    requires IsFirstMin(row, k1) && IsFirstMin(row, k2)
    ensures k1 == k2
  {
    assert row[k1] == row[k2];
  }

  function ArgMin(row: seq<int>): (k: nat)
    requires |row| > 0
    ensures IsFirstMin(row, k)
  {
    if |row| == 1 then 0
    else
      var k := ArgMin(row[..|row| - 1]);
      if row[|row| - 1] < row[k] then |row| - 1 else k
  }

  /** `np.argmin(dist, axis=1)`: the nearest reference frame of every clip frame. */
  function BestPerFrame(dist: seq<seq<int>>, width: nat): (best: seq<nat>)
    requires width > 0 && Rectangular(dist, width)
    ensures |best| == |dist|
    ensures forall i :: 0 <= i < |dist| ==> IsFirstMin(dist[i], best[i]) && best[i] < width
  {
    seq(|dist|, i requires 0 <= i < |dist| => ArgMin(dist[i]))
  }

  // --------------------------------------------------------------- bincount

  /** How many entries of `xs` equal `v`. */
  function Count(xs: seq<nat>, v: nat): (c: nat)
    ensures c <= |xs|
    ensures c > 0 <==> v in xs
  {
    if xs == [] then 0
    else
      assert xs == xs[..|xs| - 1] + [xs[|xs| - 1]];
      Count(xs[..|xs| - 1], v) + (if xs[|xs| - 1] == v then 1 else 0)
  }

  lemma {:induction false} CountIsMultiplicity(xs: seq<nat>, v: nat)
    ensures Count(xs, v) == multiset(xs)[v]
  {
    if xs != [] {
      var init := xs[..|xs| - 1];
      assert xs == init + [xs[|xs| - 1]];
      CountIsMultiplicity(init, v);
    }
  }

  function Max(xs: seq<nat>): (m: nat)
    requires |xs| > 0
    ensures m in xs && forall i :: 0 <= i < |xs| ==> xs[i] <= m
  {
    if |xs| == 1 then xs[0]
    else
      var m := Max(xs[..|xs| - 1]);
      assert xs == xs[..|xs| - 1] + [xs[|xs| - 1]];
      if xs[|xs| - 1] > m then xs[|xs| - 1] else m
  }

  /** The first `n` bins of a histogram of `xs`. */
  function Bins(xs: seq<nat>, n: nat): (bins: seq<nat>)
    ensures |bins| == n && forall v :: 0 <= v < n ==> bins[v] == Count(xs, v)
  {
    seq(n, v requires 0 <= v => Count(xs, v))
  }

  /**
   * `np.bincount(xs)`: one bin per value from 0 to the largest entry, each
   * holding how often that value occurs.
   */
  function BinCount(xs: seq<nat>): (counts: seq<nat>)
    ensures xs == [] ==> counts == []
    ensures xs != [] ==> |counts| == Max(xs) + 1 && counts[|counts| - 1] > 0
    ensures forall i :: 0 <= i < |xs| ==> xs[i] < |counts|
    ensures forall v :: 0 <= v < |counts| ==> counts[v] == Count(xs, v)
  {
    if xs == [] then [] else Bins(xs, Max(xs) + 1)
  }

  function Sum(s: seq<nat>): nat {
    if s == [] then 0 else Sum(s[..|s| - 1]) + s[|s| - 1]
  }

  /** How many entries of `xs` are below `n`. */
  function CountBelow(xs: seq<nat>, n: nat): nat {
    if xs == [] then 0
    else CountBelow(xs[..|xs| - 1], n) + (if xs[|xs| - 1] < n then 1 else 0)
  }

  lemma {:induction false} CountBelowStep(xs: seq<nat>, n: nat)
    ensures CountBelow(xs, n + 1) == CountBelow(xs, n) + Count(xs, n)
  {
    if xs != [] {
      CountBelowStep(xs[..|xs| - 1], n);
    }
  }

  lemma {:induction false} CountBelowAll(xs: seq<nat>, n: nat)
    requires forall i :: 0 <= i < |xs| ==> xs[i] < n
    ensures CountBelow(xs, n) == |xs|
  {
    if xs != [] {
      CountBelowAll(xs[..|xs| - 1], n);
    }
  }

  lemma {:induction false} CountBelowNone(xs: seq<nat>)
    ensures CountBelow(xs, 0) == 0
  {
    if xs != [] {
      CountBelowNone(xs[..|xs| - 1]);
    }
  }

  lemma {:induction false} SumOfBins(xs: seq<nat>, n: nat)
    ensures Sum(Bins(xs, n)) == CountBelow(xs, n)
  {
    if n > 0 {
      var bins := Bins(xs, n);
      assert bins[..n - 1] == Bins(xs, n - 1);
      assert Sum(bins) == Sum(bins[..n - 1]) + bins[n - 1];
      assert bins[n - 1] == Count(xs, n - 1);
      SumOfBins(xs, n - 1);
      CountBelowStep(xs, n - 1);
      assert Sum(bins) == CountBelow(xs, n - 1) + Count(xs, n - 1);
    } else {
      CountBelowNone(xs);
    }
  }

  /** Every vote lands in exactly one bin: the bins add up to the number of clip frames. */
  lemma BinCountTotal(xs: seq<nat>)
    ensures Sum(BinCount(xs)) == |xs|
  {
    if xs != [] {
      SumOfBins(xs, Max(xs) + 1);
      CountBelowAll(xs, Max(xs) + 1);
    }
  }

  // ------------------------------------------------------------------ argmax

  /** `k` is the lowest index of a maximal entry of `s` (numpy's argmax). */
  predicate IsFirstMax(s: seq<nat>, k: int) {
    && 0 <= k < |s|
    && (forall j :: 0 <= j < |s| ==> s[j] <= s[k])
    && (forall j :: 0 <= j < k ==> s[j] < s[k])
  }

  function ArgMax(s: seq<nat>): (k: nat)
    requires |s| > 0
    ensures IsFirstMax(s, k)
  {
    if |s| == 1 then 0
    else
      var k := ArgMax(s[..|s| - 1]);
      if s[|s| - 1] > s[k] then |s| - 1 else k
  }

  // ------------------------------------------------------------------ voting

  /**
   * `k` wins the vote: no value gets more votes than `k`, and every smaller
   * value gets strictly fewer (ties go to the lowest index).
   */
  ghost predicate IsVoteWinner(votes: seq<nat>, k: nat) {
    && (forall v: nat :: Count(votes, v) <= Count(votes, k))
    && (forall v: nat :: v < k ==> Count(votes, v) < Count(votes, k))
  }

  lemma VoteWinnerUnique(votes: seq<nat>, k1: nat, k2: nat)
    requires IsVoteWinner(votes, k1) && IsVoteWinner(votes, k2)
    ensures k1 == k2
  {
    assert Count(votes, k1) == Count(votes, k2);
  }

  /** The first maximal bin of `bincount` is exactly the vote winner. */
  lemma ArgMaxBinCountIsWinner(votes: seq<nat>, k: nat)
    requires |votes| > 0
    ensures k == ArgMax(BinCount(votes)) <==> IsVoteWinner(votes, k)
  {
    var counts := BinCount(votes);
    var w := ArgMax(counts);
    assert Count(votes, w) > 0 by {
      assert votes[0] < |counts|;
      assert counts[votes[0]] == Count(votes, votes[0]);
      assert Count(votes, votes[0]) > 0;
    }
    forall v: nat ensures Count(votes, v) <= Count(votes, w) {
      if v >= |counts| {
        assert v !in votes;
      }
    }
    assert IsVoteWinner(votes, w);
    if IsVoteWinner(votes, k) {
      VoteWinnerUnique(votes, k, w);
    }
  }

  /**
   * The comparison block: nearest reference frame per clip frame, votes,
   * winner. `width` is the number of reference frames (the columns of `dist`).
   */
  function Vote(dist: seq<seq<int>>, width: nat): (r: Result<nat, AlignError>)
    requires Rectangular(dist, width)
    ensures r.Ok? <==> width > 0 && |dist| > 0
    ensures width == 0 ==> r == Err(EmptyReference)
    ensures width > 0 && |dist| == 0 ==> r == Err(EmptyClip)
    ensures r.Ok? ==> r.value < width && IsVoteWinner(BestPerFrame(dist, width), r.value)
  {
    if width == 0 then Err(EmptyReference)
    else if |dist| == 0 then Err(EmptyClip)
    else
      var best := BestPerFrame(dist, width);
      var k := ArgMax(BinCount(best));
      ArgMaxBinCountIsWinner(best, k);
      assert k in best;
      Ok(k)
  }

  /** `int(x)`: truncation towards zero. */
  function Trunc(x: real): (n: int)
    ensures x >= 0.0 ==> n >= 0 && n as real <= x < n as real + 1.0
    ensures x < 0.0 ==> n <= 0 && n as real - 1.0 < x <= n as real
  {
    if x >= 0.0 then x.Floor else -((-x).Floor)
  }

  /** Nearest reference frame of every clip frame, by embedding distance. */
  function NearestFrames(clip: Embedding, song: Embedding): (best: seq<nat>)
    requires clip.dim == song.dim && |song.frames| > 0
    ensures |best| == |clip.frames|
    ensures forall i :: 0 <= i < |best| ==>
              (best[i] < |song.frames| && IsFirstMin(DistanceMatrix(clip, song)[i], best[i]))
  {
    BestPerFrame(DistanceMatrix(clip, song), |song.frames|)
  }

  /** Locate a clip in the reference: the reference second its frames vote for. */
  function Align(clip: Embedding, song: Embedding): (r: Result<AlignmentResult, AlignError>)
    ensures clip.dim != song.dim ==> r == Err(DimensionMismatch)
    ensures clip.dim == song.dim && |song.frames| == 0 ==> r == Err(EmptyReference)
    ensures clip.dim == song.dim && |song.frames| > 0 && |clip.frames| == 0 ==> r == Err(EmptyClip)
    ensures r.Ok? <==> clip.dim == song.dim && |song.frames| > 0 && |clip.frames| > 0
    ensures r.Ok? ==> r.value.frame < |song.timestamps|
                      && IsVoteWinner(NearestFrames(clip, song), r.value.frame)
                      && r.value.second == Trunc(song.timestamps[r.value.frame])
  {
    if clip.dim != song.dim then Err(DimensionMismatch)
    else
      match Vote(DistanceMatrix(clip, song), |song.frames|)
      case Err(e) => Err(e)
      case Ok(k) => Ok(AlignmentResult(k, Trunc(song.timestamps[k])))
  }

  // -------------------------------------------------------- voting scenarios

  lemma {:induction false} CountConstant(xs: seq<nat>, k: nat)
    requires forall i :: 0 <= i < |xs| ==> xs[i] == k
    ensures Count(xs, k) == |xs|
  {
    if xs != [] {
      CountConstant(xs[..|xs| - 1], k);
    }
  }

  /** When every clip frame has the same nearest reference frame `k`, `k` wins. */
  lemma VoteUnanimous(dist: seq<seq<int>>, width: nat, k: nat)
    requires Rectangular(dist, width) && |dist| > 0
    requires forall i :: 0 <= i < |dist| ==> IsFirstMin(dist[i], k)
    ensures Vote(dist, width) == Ok(k)
  {
    assert |dist[0]| == width;
    var best := BestPerFrame(dist, width);
    forall i | 0 <= i < |best| ensures best[i] == k {
      FirstMinUnique(dist[i], best[i], k);
    }
    CountConstant(best, k);
    assert IsVoteWinner(best, k);
    VoteWinnerUnique(best, Vote(dist, width).value, k);
  }

  /** A one-frame clip reduces to a single nearest-neighbour lookup. */
  lemma VoteSingleFrame(dist: seq<seq<int>>, width: nat)
    requires Rectangular(dist, width) && |dist| == 1 && width > 0
    ensures Vote(dist, width) == Ok(ArgMin(dist[0]))
  {
    VoteUnanimous(dist, width, ArgMin(dist[0]));
  }

  /** Two reference frames with one vote each: the lower index wins. */
  lemma VoteTieGoesToLowerIndex()
    ensures Vote([[0, 1], [1, 0]], 2) == Ok(0)
  {
    var dist := [[0, 1], [1, 0]];
    var best := BestPerFrame(dist, 2);
    assert best[0] == 0 && best[1] == 1;
    var w := Vote(dist, 2).value;
    assert Count(best, 0) == 1 && Count(best, 1) == 1 by { assert best[..1] == [0]; }
    assert w in best;
    assert w == 0 || w == 1;
    assert Count(best, w) == 1;
  }

  lemma {:induction false} CountOfDistinct(xs: seq<nat>, v: nat)
    requires forall i, j :: 0 <= i < j < |xs| ==> xs[i] != xs[j]
    ensures Count(xs, v) <= 1
  {
    if xs != [] {
      var init := xs[..|xs| - 1];
      CountOfDistinct(init, v);
      if xs[|xs| - 1] == v {
        assert v !in init;
      }
    }
  }

  /** A clip frame equal to reference frame `j` of a reference without repeated frames is nearest to `j`. */
  lemma ExactFrameIsNearest(clip: Embedding, song: Embedding, i: nat, j: nat)
    requires clip.dim == song.dim && i < |clip.frames| && j < |song.frames|
    requires clip.frames[i] == song.frames[j]
    requires forall a, b :: 0 <= a < b < |song.frames| ==> song.frames[a] != song.frames[b]
    ensures IsFirstMin(DistanceMatrix(clip, song)[i], j)
  {
    var row := DistanceMatrix(clip, song)[i];
    forall k | 0 <= k < |song.frames| && k != j ensures row[k] > 0 {
      assert song.frames[k] != song.frames[j];
    }
  }

  /** Votes `o, o + 1, ..., o + n - 1` elect `o`: every frame has one vote and ties go to the lowest. */
  lemma ConsecutiveVotesElectFirst(best: seq<nat>, o: nat)
    requires |best| > 0 && forall i :: 0 <= i < |best| ==> best[i] == o + i
    ensures IsVoteWinner(best, o)
  {
    assert best[0] == o;
    CountOfDistinct(best, o);
    forall v: nat ensures Count(best, v) <= Count(best, o) {
      CountOfDistinct(best, v);
    }
    forall v: nat | v < o ensures Count(best, v) == 0 {
      assert v !in best;
    }
  }

  /** Each frame of an exact excerpt at offset `o` is nearest to its own position `o + i`. */
  lemma ExcerptFramesNearest(clip: Embedding, song: Embedding, o: nat)
    requires clip.dim == song.dim && |song.frames| > 0
    requires o + |clip.frames| <= |song.frames|
    requires clip.frames == song.frames[o..o + |clip.frames|]
    requires forall i, j :: 0 <= i < j < |song.frames| ==> song.frames[i] != song.frames[j]
    ensures forall i :: 0 <= i < |clip.frames| ==> NearestFrames(clip, song)[i] == o + i
  {
    forall i | 0 <= i < |clip.frames| ensures NearestFrames(clip, song)[i] == o + i {
      assert clip.frames[i] == song.frames[o + i];
      ExcerptFrameNearest(clip, song, i, o + i);
    }
  }

  /** A clip frame equal to reference frame `j`, among pairwise different reference frames, votes for `j`. */
  lemma ExcerptFrameNearest(clip: Embedding, song: Embedding, i: nat, j: nat)
    requires clip.dim == song.dim && i < |clip.frames| && j < |song.frames|
    requires clip.frames[i] == song.frames[j]
    requires forall a, b :: 0 <= a < b < |song.frames| ==> song.frames[a] != song.frames[b]
    ensures NearestFrames(clip, song)[i] == j
  {
    ExactFrameIsNearest(clip, song, i, j);
    FirstMinUnique(DistanceMatrix(clip, song)[i], NearestFrames(clip, song)[i], j);
  }

  /**
   * A clip that is an exact copy of the reference frames `o .. o + n - 1`,
   * in a reference whose frames are pairwise different, aligns to frame `o`.
   */
  lemma AlignExcerpt(clip: Embedding, song: Embedding, o: nat)
    requires clip.dim == song.dim && |clip.frames| > 0
    requires o + |clip.frames| <= |song.frames|
    requires clip.frames == song.frames[o..o + |clip.frames|]
    requires forall i, j :: 0 <= i < j < |song.frames| ==> song.frames[i] != song.frames[j]
    ensures Align(clip, song) == Ok(AlignmentResult(o, Trunc(song.timestamps[o])))
  {
    ExcerptFramesNearest(clip, song, o);
    ConsecutiveVotesElectFirst(NearestFrames(clip, song), o);
    VoteWinnerUnique(NearestFrames(clip, song), o, Align(clip, song).value.frame);
  }

  /**
   * A reference with frames every tenth of a second (0.0, 0.1, ..., 9.9) and
   * a clip all of whose frames are nearest to frame 42 reports second 4:
   * `int(4.2)` truncates.
   */
  lemma AlignReportsTruncatedSecond(clip: Embedding, song: Embedding)
    requires clip.dim == song.dim && |clip.frames| > 0
    requires song.timestamps == seq(100, i requires 0 <= i => i as real / 10.0)
    requires forall i :: 0 <= i < |clip.frames| ==> IsFirstMin(DistanceMatrix(clip, song)[i], 42)
    ensures Align(clip, song) == Ok(AlignmentResult(42, 4))
  {
    VoteUnanimous(DistanceMatrix(clip, song), |song.frames|, 42);
    assert song.timestamps[42] == 4.2;
  }
}
