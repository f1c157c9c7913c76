/**
 * The single-clip script: make sure the clip's WAV exists, decode both
 * tracks, take the studio embedding from its cache or compute it, embed the
 * clip, and report the second of the studio track the clip matches.
 */
module SyncSimple {
  import opened Outcomes
  import opened Text
  import opened Alignment
  import opened Store
  import opened CacheKey

  /** The command line: `--song-id`, `--clip-num` and the four switches. */
  datatype Args = Args(songId: string, clipNum: int, noExtract: bool, forceExtract: bool,
                       cacheStudioEmbed: bool, refreshStudioEmbed: bool)

  /** Why a run stops: a `sys.exit` of the script or an exception nothing catches. */
  datatype RunError =
    | StudioMissing
    | NothingToDo
    | ExtractionFailed
    | AudioUnreadable(path: Path)
    | CacheUnreadable
    | InferenceFailed
    | AlignmentFailed(cause: AlignError)

  // ------------------------------------------------------------ the guards

  /** The WAV is missing, `--no-extract` is given and `--force-extract` is not. */
  predicate MustAbort(a: Args, wavExists: bool) {
    !wavExists && !a.forceExtract && a.noExtract
  }

  /** Extract when forced, or when the WAV is missing and extraction is allowed. */
  predicate ShouldExtract(a: Args, wavExists: bool) {
    a.forceExtract || (!wavExists && !a.noExtract)
  }

  /** Load the studio embedding from the cache instead of computing it. */
  predicate UsesCache(a: Args, cacheExists: bool) {
    a.cacheStudioEmbed && cacheExists && !a.refreshStudioEmbed
  }

  /** The files once the WAV step is done (the extraction, if any, succeeded or changed nothing). */
  function PreparedFiles(fs: FileMap, decode: Artifact -> Option<Pcm>, a: Args): FileMap {
    var wav := ClipWav(a.songId, a.clipNum);
    var audio := AudioTrack(fs, decode, ClipVideo(a.songId, a.clipNum));
    if ShouldExtract(a, Exists(fs, wav)) && audio.Some? then fs[wav := Wav(audio.value)] else fs
  }

  /** The four files of one run are four different paths. */
  lemma RunPathsApart(song: string, n: int)
    ensures ClipWav(song, n) != StudioCache(song) && ClipWav(song, n) != StudioMp3(song)
    ensures ClipVideo(song, n) != StudioCache(song) && ClipVideo(song, n) != StudioMp3(song)
    ensures ClipVideo(song, n) != ClipWav(song, n)
    ensures StudioCache(song) != StudioMp3(song)
  {
    assert ClipWav(song, n)[2] != StudioCache(song)[2];
    assert ClipVideo(song, n)[2] != StudioCache(song)[2];
    assert |ClipVideo(song, n)| != |ClipWav(song, n)|;
    var mp3 := StudioMp3(song)[3];
    var npz := StudioCache(song)[3];
    assert mp3[|song|] == '.';
    assert npz == song + ("_openl3_" + ParamsSuffix(Fixed));
    assert npz[|song|] == '_';
  }

  /**
   * sync_simple.py lines 55-68: stop when the WAV is missing and may not be extracted,
   * extract it when forced or missing, otherwise keep it. Once this step
   * succeeds the WAV exists. The result tells whether an extraction ran.
   */
  method PrepareClipWav(ws: Workspace, a: Args) returns (r: Result<bool, RunError>)
    modifies ws
    ensures r == Err(NothingToDo) <==> MustAbort(a, Exists(old(ws.files), ClipWav(a.songId, a.clipNum)))
    ensures r.Ok? ==> r.value == ShouldExtract(a, Exists(old(ws.files), ClipWav(a.songId, a.clipNum)))
    ensures r == Err(ExtractionFailed) <==>
              ShouldExtract(a, Exists(old(ws.files), ClipWav(a.songId, a.clipNum)))
              && AudioTrack(old(ws.files), ws.decode, ClipVideo(a.songId, a.clipNum)).None?
    ensures r.Err? ==> r.error == NothingToDo || r.error == ExtractionFailed
    ensures r.Ok? ==> Exists(ws.files, ClipWav(a.songId, a.clipNum))
    ensures ws.files == PreparedFiles(old(ws.files), ws.decode, a)
    ensures ws.decodes == old(ws.decodes)
              + (if ShouldExtract(a, Exists(old(ws.files), ClipWav(a.songId, a.clipNum))) then 1 else 0)
    ensures ws.loads == old(ws.loads) && ws.embeds == old(ws.embeds)
  {
    var wav := ClipWav(a.songId, a.clipNum);
    var wavExists := Exists(ws.files, wav);
    if MustAbort(a, wavExists) {
      return Err(NothingToDo);
    }
    if ShouldExtract(a, wavExists) {
      var ok := ws.ExtractAudio(ClipVideo(a.songId, a.clipNum), wav);
      if !ok {
        return Err(ExtractionFailed);
      }
      assert wav in ws.files;
      return Ok(true);
    }
    return Ok(false);
  }

  /** The studio embedding of lines 77-91, for decoded studio audio `song`. */
  function StudioEmbeddingOf(fs: FileMap, embed: Pcm -> Option<Embedding>, a: Args, song: Pcm): Result<Embedding, RunError> {
    if UsesCache(a, Exists(fs, StudioCache(a.songId))) then
      match StoredEmbedding(fs, StudioCache(a.songId))
      case None => Err(CacheUnreadable)
      case Some(e) => Ok(e)
    else
      match embed(song)
      case None => Err(InferenceFailed)
      case Some(e) => Ok(e)
  }

  /** The files after lines 77-91: the cache is written only when computed under `--cache-studio-embed`. */
  function CachedFiles(fs: FileMap, embed: Pcm -> Option<Embedding>, a: Args, song: Pcm): FileMap {
    if !UsesCache(a, Exists(fs, StudioCache(a.songId))) && a.cacheStudioEmbed && embed(song).Some? then
      fs[StudioCache(a.songId) := Npz(embed(song).value)]
    else fs
  }

  /**
   * sync_simple.py lines 77-91: with `--cache-studio-embed`, an existing cache and no
   * `--refresh-studio-embed`, load the embedding and do not run the model;
   * otherwise run the model, and write the cache only under `--cache-studio-embed`.
   */
  method StudioEmbedding(ws: Workspace, a: Args, song: Pcm) returns (r: Result<Embedding, RunError>)
    modifies ws
    ensures UsesCache(a, Exists(old(ws.files), StudioCache(a.songId))) ==>
              && ws.embeds == old(ws.embeds)
              && ws.files == old(ws.files)
              && (r.Ok? <==> StoredEmbedding(old(ws.files), StudioCache(a.songId)).Some?)
              && (r.Ok? ==> r.value == StoredEmbedding(old(ws.files), StudioCache(a.songId)).value)
              && (r.Err? ==> r.error == CacheUnreadable)
    ensures !UsesCache(a, Exists(old(ws.files), StudioCache(a.songId))) ==>
              && ws.embeds == old(ws.embeds) + 1
              && (r.Ok? <==> ws.embed(song).Some?)
              && (r.Ok? ==> r.value == ws.embed(song).value)
              && (r.Err? ==> r.error == InferenceFailed)
              && ws.files == (if r.Ok? && a.cacheStudioEmbed then old(ws.files)[StudioCache(a.songId) := Npz(r.value)]
                              else old(ws.files))
    ensures r == StudioEmbeddingOf(old(ws.files), ws.embed, a, song)
    ensures ws.files == CachedFiles(old(ws.files), ws.embed, a, song)
    ensures ws.decodes == old(ws.decodes) && ws.loads == old(ws.loads)
  {
    var cache := StudioCache(a.songId);
    if UsesCache(a, Exists(ws.files, cache)) {
      var stored := ws.LoadEmbedding(cache);
      if stored.None? {
        return Err(CacheUnreadable);
      }
      return Ok(stored.value);
    }
    var e := ws.Embed(song);
    if e.None? {
      return Err(InferenceFailed);
    }
    if a.cacheStudioEmbed {
      ws.SaveEmbedding(cache, e.value);
    }
    return Ok(e.value);
  }

  /** The clip and studio embeddings lines 71-99 produce from the files `fs` left by the WAV step. */
  function Embeddings(fs: FileMap, load: Artifact -> Option<Pcm>, normalize: Pcm -> Pcm,
                      embed: Pcm -> Option<Embedding>, a: Args): Result<(Embedding, Embedding), RunError> {
    match Decoded(fs, load, StudioMp3(a.songId))
    case None => Err(AudioUnreadable(StudioMp3(a.songId)))
    case Some(song) =>
      match Decoded(fs, load, ClipWav(a.songId, a.clipNum))
      case None => Err(AudioUnreadable(ClipWav(a.songId, a.clipNum)))
      case Some(clip) =>
        match StudioEmbeddingOf(fs, embed, a, song)
        case Err(e) => Err(e)
        case Ok(songEmb) =>
          match embed(normalize(clip))
          case None => Err(InferenceFailed)
          case Some(clipEmb) => Ok((clipEmb, songEmb))
  }

  /** sync_simple.py lines 71-107 on the files `fs` left by the WAV step: decode, embed, compare. */
  function Comparison(fs: FileMap, load: Artifact -> Option<Pcm>, normalize: Pcm -> Pcm,
                      embed: Pcm -> Option<Embedding>, a: Args): Result<AlignmentResult, RunError> {
    match Embeddings(fs, load, normalize, embed, a)
    case Err(e) => Err(e)
    case Ok(pair) =>
      match Align(pair.0, pair.1)
      case Err(e) => Err(AlignmentFailed(e))
      case Ok(m) => Ok(m)
  }

  /** What the whole script reports for the files `fs`. */
  function Outcome(fs: FileMap, decode: Artifact -> Option<Pcm>, load: Artifact -> Option<Pcm>,
                   normalize: Pcm -> Pcm, embed: Pcm -> Option<Embedding>, a: Args): Result<AlignmentResult, RunError> {
    var wav := ClipWav(a.songId, a.clipNum);
    if !Exists(fs, StudioMp3(a.songId)) then Err(StudioMissing)
    else if MustAbort(a, Exists(fs, wav)) then Err(NothingToDo)
    else if ShouldExtract(a, Exists(fs, wav)) && AudioTrack(fs, decode, ClipVideo(a.songId, a.clipNum)).None? then
      Err(ExtractionFailed)
    else Comparison(PreparedFiles(fs, decode, a), load, normalize, embed, a)
  }

  /**
   * The files the comparison leaves behind, from the files `fs` left by the
   * WAV step, however it ends: the cache is written only once both tracks
   * are decoded, and stays when the clip inference or the alignment fails afterwards.
   */
  function ComparedFiles(fs: FileMap, load: Artifact -> Option<Pcm>, embed: Pcm -> Option<Embedding>, a: Args): FileMap {
    match Decoded(fs, load, StudioMp3(a.songId))
    case None => fs
    case Some(song) =>
      if Decoded(fs, load, ClipWav(a.songId, a.clipNum)).None? then fs
      else CachedFiles(fs, embed, a, song)
  }

  /** How many tracks the comparison decodes: the clip only when the studio track decoded. */
  function ComparisonLoads(fs: FileMap, load: Artifact -> Option<Pcm>, a: Args): nat {
    if Decoded(fs, load, StudioMp3(a.songId)).None? then 1 else 2
  }

  /**
   * How many inferences the comparison runs: none before both tracks are
   * decoded, then one for the studio track unless the cache serves it, and
   * one for the clip once a studio embedding is at hand.
   */
  function ComparisonInferences(fs: FileMap, load: Artifact -> Option<Pcm>, embed: Pcm -> Option<Embedding>, a: Args): nat {
    match Decoded(fs, load, StudioMp3(a.songId))
    case None => 0
    case Some(song) =>
      if Decoded(fs, load, ClipWav(a.songId, a.clipNum)).None? then 0
      else (if UsesCache(a, Exists(fs, StudioCache(a.songId))) then 0 else 1)
           + (if StudioEmbeddingOf(fs, embed, a, song).Ok? then 1 else 0)
  }

  /** The files a successful run leaves behind. */
  function FinalFiles(fs: FileMap, decode: Artifact -> Option<Pcm>, load: Artifact -> Option<Pcm>,
                      embed: Pcm -> Option<Embedding>, a: Args): FileMap {
    ComparedFiles(PreparedFiles(fs, decode, a), load, embed, a)
  }

  /** sync_simple.py lines 71-107 as steps. */
  method Compare(ws: Workspace, a: Args) returns (r: Result<AlignmentResult, RunError>)
    modifies ws
    ensures r == Comparison(old(ws.files), ws.load, ws.normalize, ws.embed, a)
    ensures ws.files == ComparedFiles(old(ws.files), ws.load, ws.embed, a)
    ensures ws.loads == old(ws.loads) + ComparisonLoads(old(ws.files), ws.load, a)
    ensures ws.embeds == old(ws.embeds) + ComparisonInferences(old(ws.files), ws.load, ws.embed, a)
    ensures r.Ok? ==> ws.loads == old(ws.loads) + 2
    ensures r.Ok? ==> ws.embeds == old(ws.embeds) + (if UsesCache(a, Exists(old(ws.files), StudioCache(a.songId))) then 1 else 2)
    ensures ws.decodes == old(ws.decodes)
  {
    var studio := StudioMp3(a.songId);
    var wav := ClipWav(a.songId, a.clipNum);
    var song := ws.LoadAudio(studio);
    if song.None? {
      return Err(AudioUnreadable(studio));
    }
    var clip := ws.LoadAudio(wav);
    if clip.None? {
      return Err(AudioUnreadable(wav));
    }
    var clipAudio := ws.normalize(clip.value);
    var songEmb := StudioEmbedding(ws, a, song.value);
    if songEmb.Err? {
      return Err(songEmb.error);
    }
    var clipEmb := ws.Embed(clipAudio);
    if clipEmb.None? {
      return Err(InferenceFailed);
    }
    var aligned := Align(clipEmb.value, songEmb.value);
    if aligned.Err? {
      return Err(AlignmentFailed(aligned.error));
    }
    return Ok(aligned.value);
  }

  /** The run gets past the studio check and the WAV step to the comparison. */
  predicate Compares(fs: FileMap, decode: Artifact -> Option<Pcm>, a: Args) {
    var wav := ClipWav(a.songId, a.clipNum);
    && Exists(fs, StudioMp3(a.songId))
    && !MustAbort(a, Exists(fs, wav))
    && !(ShouldExtract(a, Exists(fs, wav)) && AudioTrack(fs, decode, ClipVideo(a.songId, a.clipNum)).None?)
  }

  /**
   * The whole script. A successful run reports the alignment of the clip
   * embedding against the studio embedding, runs the model once with a
   * cache hit and twice otherwise, and decodes both tracks in either case.
   */
  method Run(ws: Workspace, a: Args) returns (r: Result<AlignmentResult, RunError>)
    modifies ws
    ensures r == Outcome(old(ws.files), ws.decode, ws.load, ws.normalize, ws.embed, a)
    ensures r == Err(StudioMissing) || r == Err(NothingToDo) ==> ws.files == old(ws.files) && ws.decodes == old(ws.decodes)
    ensures !Compares(old(ws.files), ws.decode, a) ==>
              ws.files == old(ws.files) && ws.loads == old(ws.loads) && ws.embeds == old(ws.embeds)
    ensures Compares(old(ws.files), ws.decode, a) ==>
              && ws.files == FinalFiles(old(ws.files), ws.decode, ws.load, ws.embed, a)
              && ws.loads == old(ws.loads) + ComparisonLoads(PreparedFiles(old(ws.files), ws.decode, a), ws.load, a)
              && ws.embeds == old(ws.embeds) + ComparisonInferences(PreparedFiles(old(ws.files), ws.decode, a), ws.load, ws.embed, a)
    ensures ws.decodes == old(ws.decodes)
              + (if Exists(old(ws.files), StudioMp3(a.songId)) && !MustAbort(a, Exists(old(ws.files), ClipWav(a.songId, a.clipNum)))
                    && ShouldExtract(a, Exists(old(ws.files), ClipWav(a.songId, a.clipNum))) then 1 else 0)
    ensures r.Ok? ==> ws.files == FinalFiles(old(ws.files), ws.decode, ws.load, ws.embed, a)
    ensures r.Ok? ==> ws.loads == old(ws.loads) + 2
    ensures r.Ok? ==>
              ws.embeds == old(ws.embeds)
                + (if UsesCache(a, Exists(PreparedFiles(old(ws.files), ws.decode, a), StudioCache(a.songId))) then 1 else 2)
    ensures r.Ok? ==>
              ws.decodes == old(ws.decodes)
                + (if ShouldExtract(a, Exists(old(ws.files), ClipWav(a.songId, a.clipNum))) then 1 else 0)
  {
    if !Exists(ws.files, StudioMp3(a.songId)) {
      return Err(StudioMissing);
    }
    var prepared := PrepareClipWav(ws, a);
    if prepared.Err? {
      return Err(prepared.error);
    }
    r := Compare(ws, a);
  }

  // ------------------------------------------------------------ properties

  /** What a successful run needs of the files after its WAV step. */
  lemma SuccessfulRunFiles(fs: FileMap, decode: Artifact -> Option<Pcm>, load: Artifact -> Option<Pcm>,
                           normalize: Pcm -> Pcm, embed: Pcm -> Option<Embedding>, a: Args)
    requires Outcome(fs, decode, load, normalize, embed, a).Ok?
    ensures var p := PreparedFiles(fs, decode, a);
            && Outcome(fs, decode, load, normalize, embed, a) == Comparison(p, load, normalize, embed, a)
            && Embeddings(p, load, normalize, embed, a).Ok?
            && IsFile(p, ClipWav(a.songId, a.clipNum)) && IsFile(p, StudioMp3(a.songId))
            && (ShouldExtract(a, Exists(fs, ClipWav(a.songId, a.clipNum))) ==>
                  p[ClipWav(a.songId, a.clipNum)] == Wav(AudioTrack(fs, decode, ClipVideo(a.songId, a.clipNum)).value))
  {
  }

  /** A successful comparison decodes both tracks and runs the model once with a cache hit, twice otherwise. */
  lemma SuccessfulComparisonCounts(fs: FileMap, load: Artifact -> Option<Pcm>, normalize: Pcm -> Pcm,
                                   embed: Pcm -> Option<Embedding>, a: Args)
    requires Comparison(fs, load, normalize, embed, a).Ok?
    ensures ComparisonLoads(fs, load, a) == 2
    ensures ComparisonInferences(fs, load, embed, a) == if UsesCache(a, Exists(fs, StudioCache(a.songId))) then 1 else 2
  {
  }

  /**
   * Once both tracks are decoded and the studio embedding is computed under
   * `--cache-studio-embed`, the cache holds it whatever happens next: a
   * failing clip inference or alignment does not undo the write.
   */
  lemma CacheOutlivesLaterFailure(fs: FileMap, load: Artifact -> Option<Pcm>, embed: Pcm -> Option<Embedding>, a: Args)
    requires a.cacheStudioEmbed && !UsesCache(a, Exists(fs, StudioCache(a.songId)))
    requires Decoded(fs, load, StudioMp3(a.songId)).Some? && Decoded(fs, load, ClipWav(a.songId, a.clipNum)).Some?
    requires embed(Decoded(fs, load, StudioMp3(a.songId)).value).Some?
    ensures StoredEmbedding(ComparedFiles(fs, load, embed, a), StudioCache(a.songId))
              == embed(Decoded(fs, load, StudioMp3(a.songId)).value)
  {
  }

  /** With `--cache-studio-embed`, a successful comparison leaves the studio embedding it used in the cache. */
  lemma ComparisonFillsCache(p: FileMap, load: Artifact -> Option<Pcm>, normalize: Pcm -> Pcm,
                             embed: Pcm -> Option<Embedding>, a: Args)
    requires a.cacheStudioEmbed && Embeddings(p, load, normalize, embed, a).Ok?
    ensures StoredEmbedding(ComparedFiles(p, load, embed, a), StudioCache(a.songId))
              == Some(Embeddings(p, load, normalize, embed, a).value.1)
  {
    var song := Decoded(p, load, StudioMp3(a.songId)).value;
    assert ComparedFiles(p, load, embed, a) == CachedFiles(p, embed, a, song);
    assert Embeddings(p, load, normalize, embed, a).value.1 == StudioEmbeddingOf(p, embed, a, song).value;
  }

  /** A successful run with `--cache-studio-embed` leaves the studio embedding it used in the cache. */
  lemma RunFillsCache(fs: FileMap, decode: Artifact -> Option<Pcm>, load: Artifact -> Option<Pcm>,
                      normalize: Pcm -> Pcm, embed: Pcm -> Option<Embedding>, a: Args)
    requires a.cacheStudioEmbed && Outcome(fs, decode, load, normalize, embed, a).Ok?
    ensures StoredEmbedding(FinalFiles(fs, decode, load, embed, a), StudioCache(a.songId))
              == Some(Embeddings(PreparedFiles(fs, decode, a), load, normalize, embed, a).value.1)
  {
    SuccessfulRunFiles(fs, decode, load, normalize, embed, a);
    ComparisonFillsCache(PreparedFiles(fs, decode, a), load, normalize, embed, a);
  }

  /** The comparison writes at most the studio cache, so the clip's video, WAV and studio track stay as they were. */
  lemma ComparisonKeepsInputs(p: FileMap, load: Artifact -> Option<Pcm>, embed: Pcm -> Option<Embedding>, a: Args)
    ensures var q := ComparedFiles(p, load, embed, a);
            && (forall k :: k in p ==> k in q)
            && (forall k :: k in p && k != StudioCache(a.songId) ==> q[k] == p[k])
  {
  }

  /** Files that already hold the clip's WAV (the video's audio when extraction is forced) pass the WAV step unchanged. */
  lemma PreparationKeepsWav(q: FileMap, decode: Artifact -> Option<Pcm>, a: Args)
    requires ClipWav(a.songId, a.clipNum) in q
    requires a.forceExtract ==>
               AudioTrack(q, decode, ClipVideo(a.songId, a.clipNum)).Some?
               && q[ClipWav(a.songId, a.clipNum)] == Wav(AudioTrack(q, decode, ClipVideo(a.songId, a.clipNum)).value)
    ensures PreparedFiles(q, decode, a) == q
  {
    var wav := ClipWav(a.songId, a.clipNum);
    if a.forceExtract {
      assert PreparedFiles(q, decode, a) == q[wav := q[wav]];
    }
  }

  /** Files holding the studio track and the clip's WAV go straight to the comparison. */
  lemma OutcomeOfPreparedFiles(q: FileMap, decode: Artifact -> Option<Pcm>, load: Artifact -> Option<Pcm>,
                               normalize: Pcm -> Pcm, embed: Pcm -> Option<Embedding>, a: Args)
    requires StudioMp3(a.songId) in q && ClipWav(a.songId, a.clipNum) in q
    requires a.forceExtract ==> AudioTrack(q, decode, ClipVideo(a.songId, a.clipNum)).Some?
    requires PreparedFiles(q, decode, a) == q
    ensures Outcome(q, decode, load, normalize, embed, a) == Comparison(q, load, normalize, embed, a)
  {
  }

  /** After a successful run the files a second run's WAV step leaves are the files the first run left. */
  lemma SecondPreparationChangesNothing(fs: FileMap, decode: Artifact -> Option<Pcm>, load: Artifact -> Option<Pcm>,
                                        normalize: Pcm -> Pcm, embed: Pcm -> Option<Embedding>, a: Args)
    requires Outcome(fs, decode, load, normalize, embed, a).Ok?
    ensures var fs1 := FinalFiles(fs, decode, load, embed, a);
            && PreparedFiles(fs1, decode, a) == fs1
            && Outcome(fs1, decode, load, normalize, embed, a) == Comparison(fs1, load, normalize, embed, a)
  {
    RunPathsApart(a.songId, a.clipNum);
    var wav := ClipWav(a.songId, a.clipNum);
    var video := ClipVideo(a.songId, a.clipNum);
    SuccessfulRunFiles(fs, decode, load, normalize, embed, a);
    var p0 := PreparedFiles(fs, decode, a);
    ComparisonKeepsInputs(p0, load, embed, a);
    var fs1 := ComparedFiles(p0, load, embed, a);
    if a.forceExtract {
      assert AudioTrack(fs1, decode, video) == AudioTrack(fs, decode, video) by {
        if video in fs { assert fs1[video] == p0[video] == fs[video]; }
      }
    }
    PreparationKeepsWav(fs1, decode, a);
    OutcomeOfPreparedFiles(fs1, decode, load, normalize, embed, a);
  }

  /** With caching and no refresh, a comparison on the files a successful comparison left gets the same embeddings. */
  lemma ComparisonAgainSameEmbeddings(p: FileMap, load: Artifact -> Option<Pcm>, normalize: Pcm -> Pcm,
                                      embed: Pcm -> Option<Embedding>, a: Args)
    requires a.cacheStudioEmbed && !a.refreshStudioEmbed
    requires Embeddings(p, load, normalize, embed, a).Ok?
    ensures var q := ComparedFiles(p, load, embed, a);
            && UsesCache(a, Exists(q, StudioCache(a.songId)))
            && Embeddings(q, load, normalize, embed, a) == Embeddings(p, load, normalize, embed, a)
  {
    RunPathsApart(a.songId, a.clipNum);
    ComparisonFillsCache(p, load, normalize, embed, a);
    ComparisonKeepsInputs(p, load, embed, a);
    var q := ComparedFiles(p, load, embed, a);
    var song := Decoded(p, load, StudioMp3(a.songId)).value;
    assert Decoded(q, load, StudioMp3(a.songId)) == Decoded(p, load, StudioMp3(a.songId));
    assert Decoded(q, load, ClipWav(a.songId, a.clipNum)) == Decoded(p, load, ClipWav(a.songId, a.clipNum));
    assert StudioCache(a.songId) in q;
    assert StudioEmbeddingOf(q, embed, a, song) == Ok(Embeddings(p, load, normalize, embed, a).value.1);
  }

  /** After a successful run with caching and no refresh, the next run takes the studio embedding from the cache. */
  lemma SecondComparisonUsesCache(fs: FileMap, decode: Artifact -> Option<Pcm>, load: Artifact -> Option<Pcm>,
                                  normalize: Pcm -> Pcm, embed: Pcm -> Option<Embedding>, a: Args)
    requires a.cacheStudioEmbed && !a.refreshStudioEmbed
    requires Outcome(fs, decode, load, normalize, embed, a).Ok?
    ensures var fs1 := FinalFiles(fs, decode, load, embed, a);
            && UsesCache(a, Exists(fs1, StudioCache(a.songId)))
            && Embeddings(fs1, load, normalize, embed, a) == Embeddings(PreparedFiles(fs, decode, a), load, normalize, embed, a)
  {
    SuccessfulRunFiles(fs, decode, load, normalize, embed, a);
    ComparisonAgainSameEmbeddings(PreparedFiles(fs, decode, a), load, normalize, embed, a);
  }

  /**
   * Idempotence of the cache: after a successful run with
   * `--cache-studio-embed` and no refresh, a second run takes the studio
   * embedding from the cache and reports the same result.
   */
  lemma SecondRunReusesCache(fs: FileMap, decode: Artifact -> Option<Pcm>, load: Artifact -> Option<Pcm>,
                             normalize: Pcm -> Pcm, embed: Pcm -> Option<Embedding>, a: Args)
    requires a.cacheStudioEmbed && !a.refreshStudioEmbed
    requires Outcome(fs, decode, load, normalize, embed, a).Ok?
    ensures var fs1 := FinalFiles(fs, decode, load, embed, a);
            && UsesCache(a, Exists(PreparedFiles(fs1, decode, a), StudioCache(a.songId)))
            && Outcome(fs1, decode, load, normalize, embed, a) == Outcome(fs, decode, load, normalize, embed, a)
  {
    SuccessfulRunFiles(fs, decode, load, normalize, embed, a);
    SecondPreparationChangesNothing(fs, decode, load, normalize, embed, a);
    SecondComparisonUsesCache(fs, decode, load, normalize, embed, a);
  }

  /**
   * Running the script twice with `--cache-studio-embed` and no refresh:
   * the second run takes the studio embedding from the cache, so it runs the
   * model only for the clip, and it reports the same second.
   */
  method RunTwiceWithCache(ws: Workspace, a: Args) returns (first: Result<AlignmentResult, RunError>, second: Result<AlignmentResult, RunError>)
    requires a.cacheStudioEmbed && !a.refreshStudioEmbed
    modifies ws
    ensures first.Ok? ==> second == first
    ensures first.Ok? ==>
              ws.embeds == old(ws.embeds) + 1
                + (if UsesCache(a, Exists(PreparedFiles(old(ws.files), ws.decode, a), StudioCache(a.songId))) then 1 else 2)
  {
    ghost var fs0 := ws.files;
    first := Run(ws, a);
    if first.Ok? {
      SecondRunReusesCache(fs0, ws.decode, ws.load, ws.normalize, ws.embed, a);
    }
    second := Run(ws, a);
  }
}
