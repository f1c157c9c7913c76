/**
 * Where the scripts look for their inputs and keep their intermediate files:
 * the studio track, the clip videos and WAVs, and the embedding caches
 * whose names record the extraction parameters.
 */
module CacheKey {
  import opened Text
  import opened Store

  /**
   * The OpenL3 settings a cache name records; `hop` is the hop size as Python
   * prints it. The scripts also pass `input_repr="mel256"` and
   * `content_type="music"`, which no name records.
   */
  datatype ExtractionParams = ExtractionParams(embeddingSize: nat, sampleRate: nat, hop: string)

  /** `EMB_SIZE = 512`, `SR_TARGET = 48_000`, `HOP_SIZE = 0.1` (printed `0.1`) in both scripts. */
  const Fixed := ExtractionParams(512, 48000, "0.1")

  /** What follows the song id in an embedding file name. */
  function ParamsSuffix(p: ExtractionParams): string {
    NatToString(p.embeddingSize) + ("d_" + (NatToString(p.sampleRate) + ("sr_" + (p.hop + "s.npz"))))
  }

  /** `f"{song_id}_openl3_{EMB_SIZE}d_{SR_TARGET}sr_{HOP_SIZE}s.npz"`. */
  function EmbeddingFileName(song: string, p: ExtractionParams): (name: string)
    ensures StartsWith(name, song)
  {
    assert (song + ("_openl3_" + ParamsSuffix(p)))[..|song|] == song;
    song + ("_openl3_" + ParamsSuffix(p))
  }

  /** The length of the run of digits `s` starts with. */
  function DigitRun(s: string): (n: nat)
    ensures n <= |s|
  {
    if s == [] || !IsDigit(s[0]) then 0 else 1 + DigitRun(s[1..])
  }

  lemma {:induction false} DigitRunOf(a: string, c: char, x: string)
    requires AllDigits(a) && !IsDigit(c)
    ensures DigitRun(a + ([c] + x)) == |a|
  {
    if a != [] {
      assert (a + ([c] + x))[1..] == a[1..] + ([c] + x);
      DigitRunOf(a[1..], c, x);
    }
  }

  /** A run of digits ended by a non-digit can be read back unambiguously. */
  lemma DigitsThenStop(a: string, x: string, b: string, y: string, c: char)
    requires AllDigits(a) && AllDigits(b) && !IsDigit(c)
    requires a + ([c] + x) == b + ([c] + y)
    ensures a == b && x == y
  {
    DigitRunOf(a, c, x);
    DigitRunOf(b, c, y);
    DropPrefix(a, [c] + x, b, [c] + y);
    assert x == ([c] + x)[1..] && y == ([c] + y)[1..];
  }

  /** Equal sequences that start with equal-length prefixes agree after them. */
  lemma DropPrefix(u: string, x: string, v: string, y: string)
    requires |u| == |v| && u + x == v + y
    ensures u == v && x == y
  {
    assert u == (u + x)[..|u|] && v == (v + y)[..|v|];
    assert x == (u + x)[|u|..] && y == (v + y)[|v|..];
  }

  /** Equal sequences that end with equal-length suffixes agree before them. */
  lemma DropSuffix(x: string, u: string, y: string, v: string)
    requires |u| == |v| && x + u == y + v
    ensures x == y && u == v
  {
    assert |x| == |y|;
    assert x == (x + u)[..|x|] && y == (y + v)[..|y|];
    assert u == (x + u)[|x|..] && v == (y + v)[|y|..];
  }

  /**
   * For one song, two different embedding sizes, sample rates or hop sizes
   * never share a cache file. The input representation and content type are
   * fixed in the code and do not appear in the name.
   */
  lemma EmbeddingFileNameSeparatesParams(song: string, p: ExtractionParams, q: ExtractionParams)
    requires EmbeddingFileName(song, p) == EmbeddingFileName(song, q)
    ensures p == q
  {
    assert song + ("_openl3_" + ParamsSuffix(p)) == (song + "_openl3_") + ParamsSuffix(p);
    assert song + ("_openl3_" + ParamsSuffix(q)) == (song + "_openl3_") + ParamsSuffix(q);
    DropPrefix(song + "_openl3_", ParamsSuffix(p), song + "_openl3_", ParamsSuffix(q));
    assert "d_" + (NatToString(p.sampleRate) + ("sr_" + (p.hop + "s.npz")))
        == ['d'] + ("_" + (NatToString(p.sampleRate) + ("sr_" + (p.hop + "s.npz"))));
    assert "d_" + (NatToString(q.sampleRate) + ("sr_" + (q.hop + "s.npz")))
        == ['d'] + ("_" + (NatToString(q.sampleRate) + ("sr_" + (q.hop + "s.npz"))));
    DigitsThenStop(NatToString(p.embeddingSize), "_" + (NatToString(p.sampleRate) + ("sr_" + (p.hop + "s.npz"))),
                   NatToString(q.embeddingSize), "_" + (NatToString(q.sampleRate) + ("sr_" + (q.hop + "s.npz"))), 'd');
    DropPrefix("_", NatToString(p.sampleRate) + ("sr_" + (p.hop + "s.npz")),
               "_", NatToString(q.sampleRate) + ("sr_" + (q.hop + "s.npz")));
    assert "sr_" + (p.hop + "s.npz") == ['s'] + ("r_" + (p.hop + "s.npz"));
    assert "sr_" + (q.hop + "s.npz") == ['s'] + ("r_" + (q.hop + "s.npz"));
    DigitsThenStop(NatToString(p.sampleRate), "r_" + (p.hop + "s.npz"),
                   NatToString(q.sampleRate), "r_" + (q.hop + "s.npz"), 's');
    DropPrefix("r_", p.hop + "s.npz", "r_", q.hop + "s.npz");
    DropSuffix(p.hop, "s.npz", q.hop, "s.npz");
    NatToStringInjective(p.embeddingSize, q.embeddingSize);
    NatToStringInjective(p.sampleRate, q.sampleRate);
  }

  /** Under the same parameters, two songs never share a cache file. */
  lemma EmbeddingFileNameSeparatesSongs(a: string, b: string, p: ExtractionParams)
    requires EmbeddingFileName(a, p) == EmbeddingFileName(b, p)
    ensures a == b
  {
    DropSuffix(a, "_openl3_" + ParamsSuffix(p), b, "_openl3_" + ParamsSuffix(p));
  }

  // ------------------------------------------------------------ shared paths

  /** `BASE_DIR = Path("clips_syntrack")`. */
  const BaseDir: Path := ["clips_syntrack"]

  function SongDir(song: string): Path {
    BaseDir + [song]
  }

  /** `clips_syntrack/<song>/cancion_estudio/<song>.mp3`. */
  function StudioMp3(song: string): Path {
    SongDir(song) + ["cancion_estudio", song + ".mp3"]
  }

  // ------------------------------------------------------ single-clip script

  /** `<song>_clip<NN>`, the clip number written with at least two digits. */
  function NumberedClip(song: string, clipNum: int): string {
    song + "_clip" + Pad2(clipNum)
  }

  /** `clips_syntrack/<song>/clips_youtube/<song>_clipNN.mp4`. */
  function ClipVideo(song: string, clipNum: int): Path {
    SongDir(song) + ["clips_youtube", NumberedClip(song, clipNum) + ".mp4"]
  }

  /** `clips_syntrack/<song>/clips_youtube/wavs/<song>_clipNN.wav`. */
  function ClipWav(song: string, clipNum: int): Path {
    SongDir(song) + ["clips_youtube", "wavs", NumberedClip(song, clipNum) + ".wav"]
  }

  /** The studio cache sits next to the studio track, named by song and parameters. */
  function StudioCache(song: string): Path {
    SongDir(song) + ["cancion_estudio", EmbeddingFileName(song, Fixed)]
  }

  // --------------------------------------------------------- batch script

  /** `embeddings/songs/<song>_openl3_512d_48000sr_0.1s.npz`. */
  function SongEmbeddingPath(song: string): Path {
    ["embeddings", "songs", EmbeddingFileName(song, Fixed)]
  }

  /** `clips_syntrack/<song>/clips_<source>`. */
  function SourceDir(song: string, source: string): Path {
    SongDir(song) + ["clips_" + source]
  }

  /** `clips_syntrack/<song>/clips_<source>/wavs/<clip>.wav`. */
  function SourceWav(song: string, source: string, clip: string): Path {
    SourceDir(song, source) + ["wavs", clip + ".wav"]
  }

  /** `embeddings/clips/<song>/<source>_<clip>.npz`: no extraction parameters in the name. */
  function ClipEmbeddingPath(song: string, source: string, clip: string): Path {
    ["embeddings", "clips", song, source + "_" + clip + ".npz"]
  }

  /** Song and clip embeddings never overwrite each other, nor the inputs they come from. */
  lemma EmbeddingPathsApart(song: string, song2: string, source: string, clip: string)
    ensures SongEmbeddingPath(song) != ClipEmbeddingPath(song2, source, clip)
    ensures SongEmbeddingPath(song) != StudioMp3(song2)
    ensures ClipEmbeddingPath(song, source, clip) != SourceWav(song2, source, clip)
  {
    assert SongEmbeddingPath(song)[1] != ClipEmbeddingPath(song2, source, clip)[1];
    assert |SongEmbeddingPath(song)| != |StudioMp3(song2)|;
    assert ClipEmbeddingPath(song, source, clip)[0] != SourceWav(song2, source, clip)[0];
  }
}
