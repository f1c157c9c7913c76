/**
 * The batch script: embed every studio track into `embeddings/songs/` and
 * every clip into `embeddings/clips/<song>/`, skipping what is already there.
 */
module SyncMultiple {
  import opened Outcomes
  import opened Alignment
  import opened Store
  import opened CacheKey
  import opened Catalog
  import opened Text

  /** `--force-extract`, `--refresh-embeddings`, `--songs-only`, `--clips-only`. */
  datatype Options = Options(forceExtract: bool, refreshEmbeddings: bool, songsOnly: bool, clipsOnly: bool)

  /** How the processing of one song or clip ended (the line the script prints for it). */
  datatype ItemStatus =
    | SourceMissing     // the studio track is not there
    | AlreadyEmbedded   // the embedding file exists and no refresh was asked for
    | Embedded          // a new embedding was computed and saved
    | ExtractionFailed  // moviepy could not produce the WAV
    | LoadFailed        // librosa could not decode the audio
    | InferenceFailed   // OpenL3 raised

  /** The outcome reached the audio loader. */
  predicate Loads(s: ItemStatus) {
    s == LoadFailed || s == InferenceFailed || s == Embedded
  }

  /** The outcome ran the embedding model. */
  predicate Infers(s: ItemStatus) {
    s == InferenceFailed || s == Embedded
  }

  datatype SongItem = SongItem(song: string, status: ItemStatus)
  datatype ClipItem = ClipItem(song: string, source: string, clip: ClipRef, status: ItemStatus)

  /** What a run did: the songs it found and how each song and clip ended. */
  datatype Report = Report(found: seq<string>, songs: seq<SongItem>, clips: seq<ClipItem>)

  datatype RunError = ScanFailed(cause: ScanError) | NoSongs

  /** The collaborators a workspace was made with. */
  datatype Tools = Tools(decode: Artifact -> Option<Pcm>, load: Artifact -> Option<Pcm>,
                         normalize: Pcm -> Pcm, embed: Pcm -> Option<Embedding>)

  function ToolsOf(ws: Workspace): Tools {
    Tools(ws.decode, ws.load, ws.normalize, ws.embed)
  }

  // ------------------------------------------------------------ audio

  /** `extract_audio_if_needed` decodes exactly when forced or when the WAV is missing. */
  predicate NeedsExtraction(fs: FileMap, opts: Options, wav: Path) {
    opts.forceExtract || !Exists(fs, wav)
  }

  /** The files after `extract_audio_if_needed(video, wav)`. */
  function AfterExtraction(fs: FileMap, decode: Artifact -> Option<Pcm>, opts: Options, video: Path, wav: Path): FileMap {
    if NeedsExtraction(fs, opts, wav) && AudioTrack(fs, decode, video).Some? then
      fs[wav := Wav(AudioTrack(fs, decode, video).value)]
    else fs
  }

  /**
   * `extract_audio_if_needed`: true when the WAV is already there and no
   * extraction is forced, or when the extraction succeeds. Whether to
   * refresh embeddings plays no part.
   */
  method ExtractAudioIfNeeded(ws: Workspace, opts: Options, video: Path, wav: Path) returns (ok: bool)
    modifies ws
    ensures ws.decodes == old(ws.decodes) + (if NeedsExtraction(old(ws.files), opts, wav) then 1 else 0)
    ensures !NeedsExtraction(old(ws.files), opts, wav) ==> ok
    ensures NeedsExtraction(old(ws.files), opts, wav) ==> (ok <==> AudioTrack(old(ws.files), ws.decode, video).Some?)
    ensures ws.files == AfterExtraction(old(ws.files), ws.decode, opts, video, wav)
    ensures ws.loads == old(ws.loads) && ws.embeds == old(ws.embeds)
  {
    if opts.forceExtract || !Exists(ws.files, wav) {
      ok := ws.ExtractAudio(video, wav);
    } else {
      ok := true;
    }
  }

  // ------------------------------------------------------------ songs

  /** Past both early returns of `process_song_embedding`. */
  predicate SongNeedsWork(fs: FileMap, opts: Options, song: string) {
    Exists(fs, StudioMp3(song)) && !(Exists(fs, SongEmbeddingPath(song)) && !opts.refreshEmbeddings)
  }

  /** How `process_song_embedding(song)` ends when it finds the files `fs`. */
  function SongStatus(fs: FileMap, t: Tools, opts: Options, song: string): ItemStatus {
    if !Exists(fs, StudioMp3(song)) then SourceMissing
    else if Exists(fs, SongEmbeddingPath(song)) && !opts.refreshEmbeddings then AlreadyEmbedded
    else if Decoded(fs, t.load, StudioMp3(song)).None? then LoadFailed
    else if t.embed(Decoded(fs, t.load, StudioMp3(song)).value).None? then InferenceFailed
    else Embedded
  }

  /** The files `process_song_embedding(song)` leaves behind. */
  function SongFiles(fs: FileMap, t: Tools, opts: Options, song: string): FileMap {
    if SongStatus(fs, t, opts, song) == Embedded then
      fs[SongEmbeddingPath(song) := Npz(t.embed(Decoded(fs, t.load, StudioMp3(song)).value).value)]
    else fs
  }

  /** `process_song_embedding`. */
  method ProcessSongEmbedding(ws: Workspace, opts: Options, song: string) returns (status: ItemStatus)
    modifies ws
    ensures status == SourceMissing <==> !Exists(old(ws.files), StudioMp3(song))
    ensures status == AlreadyEmbedded <==>
              Exists(old(ws.files), StudioMp3(song)) && Exists(old(ws.files), SongEmbeddingPath(song)) && !opts.refreshEmbeddings
    ensures Loads(status) <==> SongNeedsWork(old(ws.files), opts, song)
    ensures status == LoadFailed <==>
              SongNeedsWork(old(ws.files), opts, song) && Decoded(old(ws.files), ws.load, StudioMp3(song)).None?
    ensures status == InferenceFailed <==>
              SongNeedsWork(old(ws.files), opts, song) && Decoded(old(ws.files), ws.load, StudioMp3(song)).Some?
              && ws.embed(Decoded(old(ws.files), ws.load, StudioMp3(song)).value).None?
    ensures status == Embedded ==>
              ws.files == old(ws.files)[SongEmbeddingPath(song) :=
                Npz(ws.embed(Decoded(old(ws.files), ws.load, StudioMp3(song)).value).value)]
    ensures status != Embedded ==> ws.files == old(ws.files)
    ensures status != ExtractionFailed
    ensures status == SongStatus(old(ws.files), ToolsOf(ws), opts, song)
    ensures ws.files == SongFiles(old(ws.files), ToolsOf(ws), opts, song)
    ensures ws.decodes == old(ws.decodes)
    ensures ws.loads == old(ws.loads) + (if Loads(status) then 1 else 0)
    ensures ws.embeds == old(ws.embeds) + (if Infers(status) then 1 else 0)
  {
    var studio := StudioMp3(song);
    var embedFile := SongEmbeddingPath(song);
    if !Exists(ws.files, studio) {
      return SourceMissing;
    }
    if Exists(ws.files, embedFile) && !opts.refreshEmbeddings {
      return AlreadyEmbedded;
    }
    var audio := ws.LoadAudio(studio);
    if audio.None? {
      return LoadFailed;
    }
    var emb := ws.Embed(audio.value);
    if emb.None? {
      return InferenceFailed;
    }
    ws.SaveEmbedding(embedFile, emb.value);
    return Embedded;
  }

  // ------------------------------------------------------------ clips

  /** Past the early return of `process_clip_embedding`. */
  predicate ClipNeedsWork(fs: FileMap, opts: Options, song: string, source: string, clip: string) {
    !(Exists(fs, ClipEmbeddingPath(song, source, clip)) && !opts.refreshEmbeddings)
  }

  /** How `process_clip_embedding(song, source, clip.video, clip.name)` ends when it finds the files `fs`. */
  function ClipStatus(fs: FileMap, t: Tools, opts: Options, song: string, source: string, clip: ClipRef): ItemStatus {
    var wav := SourceWav(song, source, clip.name);
    var extracted := AfterExtraction(fs, t.decode, opts, clip.video, wav);
    if !ClipNeedsWork(fs, opts, song, source, clip.name) then AlreadyEmbedded
    else if NeedsExtraction(fs, opts, wav) && AudioTrack(fs, t.decode, clip.video).None? then ExtractionFailed
    else if Decoded(extracted, t.load, wav).None? then LoadFailed
    else if t.embed(t.normalize(Decoded(extracted, t.load, wav).value)).None? then InferenceFailed
    else Embedded
  }

  /** The files that call leaves behind. */
  function ClipFiles(fs: FileMap, t: Tools, opts: Options, song: string, source: string, clip: ClipRef): FileMap {
    var wav := SourceWav(song, source, clip.name);
    var extracted := AfterExtraction(fs, t.decode, opts, clip.video, wav);
    var status := ClipStatus(fs, t, opts, song, source, clip);
    if status == AlreadyEmbedded then fs
    else if status == Embedded then
      extracted[ClipEmbeddingPath(song, source, clip.name) := Npz(t.embed(t.normalize(Decoded(extracted, t.load, wav).value)).value)]
    else extracted
  }

  /**
   * What each outcome of `process_clip_embedding` means: skipped when the
   * archive exists and no refresh is asked for; a failed extraction changes
   * nothing; otherwise the WAV (extracted when forced or missing) is loaded,
   * normalised and embedded, and only a successful inference stores the archive.
   */
  lemma ClipStatusMeaning(fs: FileMap, t: Tools, opts: Options, song: string, source: string, clip: ClipRef)
    ensures ClipStatus(fs, t, opts, song, source, clip) != SourceMissing
    ensures ClipStatus(fs, t, opts, song, source, clip) == AlreadyEmbedded <==> !ClipNeedsWork(fs, opts, song, source, clip.name)
    ensures ClipStatus(fs, t, opts, song, source, clip) == AlreadyEmbedded ==> ClipFiles(fs, t, opts, song, source, clip) == fs
    ensures ClipStatus(fs, t, opts, song, source, clip) == ExtractionFailed <==>
              ClipNeedsWork(fs, opts, song, source, clip.name)
              && NeedsExtraction(fs, opts, SourceWav(song, source, clip.name))
              && AudioTrack(fs, t.decode, clip.video).None?
    ensures ClipStatus(fs, t, opts, song, source, clip) == ExtractionFailed ==> ClipFiles(fs, t, opts, song, source, clip) == fs
    ensures Loads(ClipStatus(fs, t, opts, song, source, clip)) ==>
              var status := ClipStatus(fs, t, opts, song, source, clip);
              var extracted := AfterExtraction(fs, t.decode, opts, clip.video, SourceWav(song, source, clip.name));
              var audio := Decoded(extracted, t.load, SourceWav(song, source, clip.name));
              && (status == LoadFailed <==> audio.None?)
              && (status == InferenceFailed <==> audio.Some? && t.embed(t.normalize(audio.value)).None?)
              && (status == Embedded ==>
                    ClipFiles(fs, t, opts, song, source, clip) ==
                      extracted[ClipEmbeddingPath(song, source, clip.name) := Npz(t.embed(t.normalize(audio.value)).value)])
              && (status != Embedded ==> ClipFiles(fs, t, opts, song, source, clip) == extracted)
  {
  }

  /** `process_clip_embedding`: its outcome and files are `ClipStatus` and `ClipFiles` of the files it finds. */
  method ProcessClipEmbedding(ws: Workspace, opts: Options, song: string, source: string, video: Path, clip: string)
    returns (status: ItemStatus)
    modifies ws
    ensures status == ClipStatus(old(ws.files), ToolsOf(ws), opts, song, source, ClipRef(video, clip))
    ensures ws.files == ClipFiles(old(ws.files), ToolsOf(ws), opts, song, source, ClipRef(video, clip))
    ensures ws.decodes == old(ws.decodes) +
              (if status != AlreadyEmbedded && NeedsExtraction(old(ws.files), opts, SourceWav(song, source, clip)) then 1 else 0)
    ensures ws.loads == old(ws.loads) + (if Loads(status) then 1 else 0)
    ensures ws.embeds == old(ws.embeds) + (if Infers(status) then 1 else 0)
  {
    var wav := SourceWav(song, source, clip);
    var embedFile := ClipEmbeddingPath(song, source, clip);
    if Exists(ws.files, embedFile) && !opts.refreshEmbeddings {
      return AlreadyEmbedded;
    }
    var ok := ExtractAudioIfNeeded(ws, opts, video, wav);
    if !ok {
      return ExtractionFailed;
    }
    var audio := ws.LoadAudio(wav);
    if audio.None? {
      return LoadFailed;
    }
    var emb := ws.Embed(ws.normalize(audio.value));
    if emb.None? {
      return InferenceFailed;
    }
    ws.SaveEmbedding(embedFile, emb.value);
    return Embedded;
  }

  /** Whether an extraction runs does not depend on `--refresh-embeddings`. */
  lemma ExtractionIgnoresRefresh(fs: FileMap, decode: Artifact -> Option<Pcm>, opts: Options, video: Path, wav: Path, refresh: bool)
    ensures NeedsExtraction(fs, opts, wav) == NeedsExtraction(fs, opts.(refreshEmbeddings := refresh), wav)
    ensures AfterExtraction(fs, decode, opts, video, wav) == AfterExtraction(fs, decode, opts.(refreshEmbeddings := refresh), video, wav)
  {
  }

  /**
   * Processing a song twice without `--refresh-embeddings`: once the first
   * call saved the embedding, the second finds it and runs nothing.
   */
  method ProcessSongTwice(ws: Workspace, opts: Options, song: string) returns (first: ItemStatus, second: ItemStatus)
    requires !opts.refreshEmbeddings
    modifies ws
    ensures first == Embedded || first == AlreadyEmbedded ==> second == AlreadyEmbedded
    ensures first == SourceMissing ==> second == SourceMissing
    ensures first == Embedded || first == AlreadyEmbedded ==>
              ws.embeds == old(ws.embeds) + (if first == Embedded then 1 else 0)
              && ws.loads == old(ws.loads) + (if first == Embedded then 1 else 0)
  {
    first := ProcessSongEmbedding(ws, opts, song);
    if first == Embedded {
      StoreKeepsPaths(old(ws.files), SongEmbeddingPath(song), ws.files[SongEmbeddingPath(song)], StudioMp3(song));
      assert SongEmbeddingPath(song) in ws.files;
    }
    second := ProcessSongEmbedding(ws, opts, song);
  }

  /**
   * Processing a clip twice without `--refresh-embeddings`: once the first
   * call saved the embedding, the second neither extracts nor runs the model.
   */
  method ProcessClipTwice(ws: Workspace, opts: Options, song: string, source: string, video: Path, clip: string)
    returns (first: ItemStatus, second: ItemStatus)
    requires !opts.refreshEmbeddings
    modifies ws
    ensures first == Embedded || first == AlreadyEmbedded ==> second == AlreadyEmbedded
    ensures first == AlreadyEmbedded ==> ws.files == old(ws.files) && ws.decodes == old(ws.decodes) && ws.embeds == old(ws.embeds)
    ensures first == Embedded ==> ws.embeds == old(ws.embeds) + 1
    ensures first == Embedded ==>
              ws.decodes == old(ws.decodes) + (if NeedsExtraction(old(ws.files), opts, SourceWav(song, source, clip)) then 1 else 0)
  {
    ClipStatusMeaning(ws.files, ToolsOf(ws), opts, song, source, ClipRef(video, clip));
    first := ProcessClipEmbedding(ws, opts, song, source, video, clip);
    if first == Embedded {
      assert ClipEmbeddingPath(song, source, clip) in ws.files;
    }
    ClipStatusMeaning(ws.files, ToolsOf(ws), opts, song, source, ClipRef(video, clip));
    second := ProcessClipEmbedding(ws, opts, song, source, video, clip);
  }

  // ------------------------------------------------------------ counts

  function SongInferences(items: seq<SongItem>): nat {
    if items == [] then 0
    else SongInferences(items[..|items| - 1]) + (if Infers(items[|items| - 1].status) then 1 else 0)
  }

  function SongLoads(items: seq<SongItem>): nat {
    if items == [] then 0
    else SongLoads(items[..|items| - 1]) + (if Loads(items[|items| - 1].status) then 1 else 0)
  }

  function ClipInferences(items: seq<ClipItem>): nat {
    if items == [] then 0
    else ClipInferences(items[..|items| - 1]) + (if Infers(items[|items| - 1].status) then 1 else 0)
  }

  function ClipLoads(items: seq<ClipItem>): nat {
    if items == [] then 0
    else ClipLoads(items[..|items| - 1]) + (if Loads(items[|items| - 1].status) then 1 else 0)
  }

  /** At most one model run per song, only after a load, and none when no song got past both early returns. */
  lemma {:induction false} SongInferencesBound(items: seq<SongItem>)
    ensures SongInferences(items) <= SongLoads(items) <= |items|
    ensures (forall i :: 0 <= i < |items| ==> !Loads(items[i].status)) ==> SongLoads(items) == 0
  {
    if items != [] {
      SongInferencesBound(items[..|items| - 1]);
    }
  }

  /** At most one model run per clip, only after a load, and none when no clip got past the early returns. */
  lemma {:induction false} ClipInferencesBound(items: seq<ClipItem>)
    ensures ClipInferences(items) <= ClipLoads(items) <= |items|
    ensures (forall i :: 0 <= i < |items| ==> !Loads(items[i].status)) ==> ClipLoads(items) == 0
  {
    if items != [] {
      ClipInferencesBound(items[..|items| - 1]);
    }
  }

  lemma {:induction false} ClipCountsAppend(a: seq<ClipItem>, b: seq<ClipItem>)
    ensures ClipLoads(a + b) == ClipLoads(a) + ClipLoads(b)
    ensures ClipInferences(a + b) == ClipInferences(a) + ClipInferences(b)
  {
    if b == [] {
      assert a + b == a;
    } else {
      assert (a + b)[..|a + b| - 1] == a + b[..|b| - 1];
      ClipCountsAppend(a, b[..|b| - 1]);
    }
  }

  // ------------------------------------------------------- the song loop

  /** The files after processing `songs` one after the other. */
  function SongsFiles(fs: FileMap, t: Tools, opts: Options, songs: seq<string>): FileMap
    decreases |songs|
  {
    if songs == [] then fs
    else SongFiles(SongsFiles(fs, t, opts, songs[..|songs| - 1]), t, opts, songs[|songs| - 1])
  }

  /** Everything `process_song_embedding(song)` looks at agrees between `fs` and `gs`. */
  predicate SameSongInputs(fs: FileMap, gs: FileMap, song: string) {
    && Exists(fs, StudioMp3(song)) == Exists(gs, StudioMp3(song)) && AgreeAt(fs, gs, StudioMp3(song))
    && Exists(fs, SongEmbeddingPath(song)) == Exists(gs, SongEmbeddingPath(song)) && AgreeAt(fs, gs, SongEmbeddingPath(song))
  }

  lemma SameInputsSameSong(fs: FileMap, gs: FileMap, t: Tools, opts: Options, song: string)
    requires SameSongInputs(fs, gs, song)
    ensures SongStatus(fs, t, opts, song) == SongStatus(gs, t, opts, song)
    ensures AgreeAt(SongFiles(fs, t, opts, song), SongFiles(gs, t, opts, song), SongEmbeddingPath(song))
  {
    assert Decoded(fs, t.load, StudioMp3(song)) == Decoded(gs, t.load, StudioMp3(song));
  }

  /** Processing one song leaves everything another song's processing looks at as it was. */
  lemma SongKeepsOthers(fs: FileMap, t: Tools, opts: Options, s: string, other: string)
    requires s != other
    ensures SameSongInputs(fs, SongFiles(fs, t, opts, s), other)
  {
    if SongStatus(fs, t, opts, s) == Embedded {
      var p := SongEmbeddingPath(s);
      var a := SongFiles(fs, t, opts, s)[p];
      assert SongFiles(fs, t, opts, s) == fs[p := a];
      assert p[0] != StudioMp3(other)[0];
      assert !Under(p, SongEmbeddingPath(other)) by {
        if Under(p, SongEmbeddingPath(other)) {
          assert p[2] == SongEmbeddingPath(other)[2];
          EmbeddingFileNameSeparatesSongs(s, other, Fixed);
        }
      }
      StoreElsewhere(fs, p, a, StudioMp3(other));
      StoreElsewhere(fs, p, a, SongEmbeddingPath(other));
    }
  }

  lemma {:induction false} SongsFilesKeepOthers(fs: FileMap, t: Tools, opts: Options, songs: seq<string>, other: string)
    requires other !in songs
    ensures SameSongInputs(fs, SongsFiles(fs, t, opts, songs), other)
  {
    if songs != [] {
      var init := songs[..|songs| - 1];
      assert songs == init + [songs[|songs| - 1]];
      SongsFilesKeepOthers(fs, t, opts, init, other);
      SongKeepsOthers(SongsFiles(fs, t, opts, init), t, opts, songs[|songs| - 1], other);
    }
  }

  /**
   * Distinct songs do not see each other's writes: in the loop over
   * distinct songs every song ends as it would on the files the loop started from.
   */
  lemma SongsIndependent(fs: FileMap, t: Tools, opts: Options, songs: seq<string>)
    requires Distinct(songs)
    ensures forall i :: 0 <= i < |songs| ==>
              SongStatus(SongsFiles(fs, t, opts, songs[..i]), t, opts, songs[i]) == SongStatus(fs, t, opts, songs[i])
  {
    forall i | 0 <= i < |songs|
      ensures SongStatus(SongsFiles(fs, t, opts, songs[..i]), t, opts, songs[i]) == SongStatus(fs, t, opts, songs[i])
    {
      SongsFilesKeepOthers(fs, t, opts, songs[..i], songs[i]);
      SameInputsSameSong(fs, SongsFiles(fs, t, opts, songs[..i]), t, opts, songs[i]);
    }
  }

  function SongEmbeddingPaths(songs: seq<string>): set<Path> {
    set s | s in songs :: SongEmbeddingPath(s)
  }

  /**
   * What the loop over distinct songs leaves behind: each song's embedding
   * path holds what processing that song alone would have stored there, and
   * no other path changes.
   */
  lemma {:induction false} SongsFilesWrites(fs: FileMap, t: Tools, opts: Options, songs: seq<string>)
    requires Distinct(songs)
    ensures forall i :: 0 <= i < |songs| ==>
              AgreeAt(SongsFiles(fs, t, opts, songs), SongFiles(fs, t, opts, songs[i]), SongEmbeddingPath(songs[i]))
    ensures forall p :: p !in SongEmbeddingPaths(songs) ==> AgreeAt(SongsFiles(fs, t, opts, songs), fs, p)
  {
    if songs != [] {
      var init := songs[..|songs| - 1];
      var last := songs[|songs| - 1];
      assert songs == init + [last];
      assert Distinct(init);
      SongsFilesWrites(fs, t, opts, init);
      var mid := SongsFiles(fs, t, opts, init);
      var final := SongsFiles(fs, t, opts, songs);
      forall q | q != SongEmbeddingPath(last) ensures AgreeAt(final, mid, q) {
      }
      assert last !in init;
      SongsFilesKeepOthers(fs, t, opts, init, last);
      SameInputsSameSong(mid, fs, t, opts, last);
      assert SongEmbeddingPaths(init) <= SongEmbeddingPaths(songs);
    }
  }

  /** Embedding archives lie outside `clips_syntrack`: the song loop changes no clip scan. */
  lemma {:induction false} SongsFilesKeepCatalog(fs: FileMap, t: Tools, opts: Options, songs: seq<string>)
    ensures SameCatalog(fs, SongsFiles(fs, t, opts, songs))
  {
    if songs != [] {
      var init := songs[..|songs| - 1];
      var last := songs[|songs| - 1];
      SongsFilesKeepCatalog(fs, t, opts, init);
      var mid := SongsFiles(fs, t, opts, init);
      if SongStatus(mid, t, opts, last) == Embedded {
        var p := SongEmbeddingPath(last);
        OutsideKeepsCatalog(mid, p, SongFiles(mid, t, opts, last)[p]);
        assert SongFiles(mid, t, opts, last) == mid[p := SongFiles(mid, t, opts, last)[p]];
        SameCatalogTrans(fs, mid, SongsFiles(fs, t, opts, songs));
      }
    }
  }

  lemma {:induction false} SongsAllEmbeddedFiles(fs: FileMap, t: Tools, opts: Options, songs: seq<string>)
    requires !opts.refreshEmbeddings
    requires forall s :: s in songs ==> Exists(fs, SongEmbeddingPath(s))
    ensures SongsFiles(fs, t, opts, songs) == fs
  {
    if songs != [] {
      var init := songs[..|songs| - 1];
      assert forall s :: s in init ==> s in songs;
      SongsAllEmbeddedFiles(fs, t, opts, init);
      assert Exists(fs, SongEmbeddingPath(songs[|songs| - 1]));
    }
  }

  /** Without `--refresh-embeddings`, songs whose embedding is there already load nothing and change nothing. */
  lemma SongsAllEmbedded(fs: FileMap, t: Tools, opts: Options, songs: seq<string>)
    requires !opts.refreshEmbeddings
    requires forall s :: s in songs ==> Exists(fs, SongEmbeddingPath(s))
    ensures SongsFiles(fs, t, opts, songs) == fs
    ensures forall i :: 0 <= i < |songs| ==> !Loads(SongStatus(SongsFiles(fs, t, opts, songs[..i]), t, opts, songs[i]))
  {
    SongsAllEmbeddedFiles(fs, t, opts, songs);
    forall i | 0 <= i < |songs| ensures SongsFiles(fs, t, opts, songs[..i]) == fs {
      assert forall s :: s in songs[..i] ==> s in songs;
      SongsAllEmbeddedFiles(fs, t, opts, songs[..i]);
    }
  }

  lemma SongsFilesStep(fs: FileMap, t: Tools, opts: Options, songs: seq<string>, i: nat)
    requires i < |songs|
    ensures SongsFiles(fs, t, opts, songs[..i + 1]) == SongFiles(SongsFiles(fs, t, opts, songs[..i]), t, opts, songs[i])
  {
    assert songs[..i + 1][..i] == songs[..i];
  }

  /** Each song ended as processing it after the songs before it gives. */
  ghost predicate SongsInOrder(fs: FileMap, t: Tools, opts: Options, songs: seq<string>, items: seq<SongItem>) {
    |items| == |songs| &&
    forall k :: 0 <= k < |songs| ==> items[k] == SongItem(songs[k], SongStatus(SongsFiles(fs, t, opts, songs[..k]), t, opts, songs[k]))
  }

  lemma SongsInOrderStep(fs: FileMap, t: Tools, opts: Options, songs: seq<string>, items: seq<SongItem>, i: nat)
    requires i < |songs| && SongsInOrder(fs, t, opts, songs[..i], items)
    ensures SongsInOrder(fs, t, opts, songs[..i + 1],
                         items + [SongItem(songs[i], SongStatus(SongsFiles(fs, t, opts, songs[..i]), t, opts, songs[i]))])
  {
    var next := items + [SongItem(songs[i], SongStatus(SongsFiles(fs, t, opts, songs[..i]), t, opts, songs[i]))];
    var pre := songs[..i + 1];
    forall k | 0 <= k < |pre|
      ensures next[k] == SongItem(pre[k], SongStatus(SongsFiles(fs, t, opts, pre[..k]), t, opts, pre[k]))
    {
      assert pre[..k] == songs[..k] && pre[k] == songs[k];
      if k < i {
        assert songs[..i][..k] == songs[..k] && songs[..i][k] == songs[k];
      }
    }
  }

  /** The loop over the songs in `main`. */
  method ProcessAllSongs(ws: Workspace, opts: Options, songs: seq<string>) returns (items: seq<SongItem>)
    modifies ws
    ensures SongsInOrder(old(ws.files), ToolsOf(ws), opts, songs, items)
    ensures ws.files == SongsFiles(old(ws.files), ToolsOf(ws), opts, songs)
    ensures ws.decodes == old(ws.decodes)
    ensures ws.loads == old(ws.loads) + SongLoads(items)
    ensures ws.embeds == old(ws.embeds) + SongInferences(items)
  {
    ghost var fs0 := ws.files;
    items := [];
    var i := 0;
    while i < |songs|
      invariant 0 <= i <= |songs|
      invariant SongsInOrder(fs0, ToolsOf(ws), opts, songs[..i], items)
      invariant ws.files == SongsFiles(fs0, ToolsOf(ws), opts, songs[..i])
      invariant ws.decodes == old(ws.decodes)
      invariant ws.loads == old(ws.loads) + SongLoads(items)
      invariant ws.embeds == old(ws.embeds) + SongInferences(items)
    {
      var status := ProcessSongEmbedding(ws, opts, songs[i]);
      SongsFilesStep(fs0, ToolsOf(ws), opts, songs, i);
      SongsInOrderStep(fs0, ToolsOf(ws), opts, songs, items, i);
      assert (items + [SongItem(songs[i], status)])[..i] == items;
      items := items + [SongItem(songs[i], status)];
      i := i + 1;
    }
    assert songs[..|songs|] == songs;
  }

  // ------------------------------------------------------- the clip loops

  /** A clip to process: the song and source it was found under, and the clip. */
  datatype ClipJob = ClipJob(song: string, source: string, clip: ClipRef)

  function JobsOf(items: seq<ClipItem>): (jobs: seq<ClipJob>)
    ensures |jobs| == |items|
    ensures forall k :: 0 <= k < |items| ==> jobs[k] == ClipJob(items[k].song, items[k].source, items[k].clip)
  {
    if items == [] then []
    else JobsOf(items[..|items| - 1]) + [ClipJob(items[|items| - 1].song, items[|items| - 1].source, items[|items| - 1].clip)]
  }

  function ClipJobs(song: string, source: string, clips: seq<ClipRef>): (jobs: seq<ClipJob>)
    ensures |jobs| == |clips|
    ensures forall k :: 0 <= k < |clips| ==> jobs[k] == ClipJob(song, source, clips[k])
  {
    if clips == [] then [] else ClipJobs(song, source, clips[..|clips| - 1]) + [ClipJob(song, source, clips[|clips| - 1])]
  }

  /** The files after processing the clips of `items` one after the other. */
  function ClipsFiles(fs: FileMap, t: Tools, opts: Options, items: seq<ClipItem>): FileMap
    decreases |items|
  {
    if items == [] then fs
    else
      var last := items[|items| - 1];
      ClipFiles(ClipsFiles(fs, t, opts, items[..|items| - 1]), t, opts, last.song, last.source, last.clip)
  }

  /** Each clip ended as processing it after the clips before it gives. */
  ghost predicate ClipsInOrder(fs: FileMap, t: Tools, opts: Options, items: seq<ClipItem>) {
    forall k :: 0 <= k < |items| ==>
      items[k].status == ClipStatus(ClipsFiles(fs, t, opts, items[..k]), t, opts, items[k].song, items[k].source, items[k].clip)
  }

  /** No clip got past the early return of `process_clip_embedding`. */
  predicate AllSkipped(items: seq<ClipItem>) {
    forall c :: c in items ==> c.status == AlreadyEmbedded
  }

  /** Whether processing `c` on the files `fs` ran moviepy: it got past the early return and its WAV was missing or forced. */
  function ClipDecodes(fs: FileMap, opts: Options, c: ClipItem): nat {
    if c.status != AlreadyEmbedded && NeedsExtraction(fs, opts, SourceWav(c.song, c.source, c.clip.name)) then 1 else 0
  }

  /** The extractions run while processing the clips of `items` one after the other. */
  function ClipsDecodes(fs: FileMap, t: Tools, opts: Options, items: seq<ClipItem>): nat
    decreases |items|
  {
    if items == [] then 0
    else
      var init := items[..|items| - 1];
      ClipsDecodes(fs, t, opts, init) + ClipDecodes(ClipsFiles(fs, t, opts, init), opts, items[|items| - 1])
  }

  lemma ClipsDecodesStep(fs: FileMap, t: Tools, opts: Options, items: seq<ClipItem>, c: ClipItem)
    ensures ClipsDecodes(fs, t, opts, items + [c]) == ClipsDecodes(fs, t, opts, items) + ClipDecodes(ClipsFiles(fs, t, opts, items), opts, c)
  {
    assert (items + [c])[..|items|] == items;
  }

  lemma {:induction false} ClipsDecodesAppend(fs: FileMap, t: Tools, opts: Options, a: seq<ClipItem>, b: seq<ClipItem>)
    ensures ClipsDecodes(fs, t, opts, a + b) == ClipsDecodes(fs, t, opts, a) + ClipsDecodes(ClipsFiles(fs, t, opts, a), t, opts, b)
    decreases |b|
  {
    if b == [] {
      assert a + b == a;
    } else {
      var init := b[..|b| - 1];
      var c := b[|b| - 1];
      assert a + b == (a + init) + [c] && b == init + [c];
      ClipsDecodesAppend(fs, t, opts, a, init);
      ClipsDecodesStep(fs, t, opts, a + init, c);
      ClipsDecodesStep(ClipsFiles(fs, t, opts, a), t, opts, init, c);
      ClipsFilesAppend(fs, t, opts, a, init);
    }
  }

  /** At most one extraction per clip, and none when every clip was skipped. */
  lemma {:induction false} ClipsDecodesBound(fs: FileMap, t: Tools, opts: Options, items: seq<ClipItem>)
    ensures ClipsDecodes(fs, t, opts, items) <= |items|
    ensures AllSkipped(items) ==> ClipsDecodes(fs, t, opts, items) == 0
    decreases |items|
  {
    if items != [] {
      var init := items[..|items| - 1];
      assert forall c :: c in init ==> c in items;
      assert items[|items| - 1] in items;
      ClipsDecodesBound(fs, t, opts, init);
    }
  }

  lemma {:induction false} ClipsFilesAppend(fs: FileMap, t: Tools, opts: Options, a: seq<ClipItem>, b: seq<ClipItem>)
    ensures ClipsFiles(fs, t, opts, a + b) == ClipsFiles(ClipsFiles(fs, t, opts, a), t, opts, b)
  {
    if b == [] {
      assert a + b == a;
    } else {
      assert (a + b)[..|a + b| - 1] == a + b[..|b| - 1];
      assert (a + b)[|a + b| - 1] == b[|b| - 1];
      ClipsFilesAppend(fs, t, opts, a, b[..|b| - 1]);
    }
  }

  lemma ClipsInOrderAppend(fs: FileMap, t: Tools, opts: Options, a: seq<ClipItem>, b: seq<ClipItem>)
    requires ClipsInOrder(fs, t, opts, a) && ClipsInOrder(ClipsFiles(fs, t, opts, a), t, opts, b)
    ensures ClipsInOrder(fs, t, opts, a + b)
  {
    forall k | 0 <= k < |a + b|
      ensures (a + b)[k].status ==
                ClipStatus(ClipsFiles(fs, t, opts, (a + b)[..k]), t, opts, (a + b)[k].song, (a + b)[k].source, (a + b)[k].clip)
    {
      if k < |a| {
        assert (a + b)[..k] == a[..k] && (a + b)[k] == a[k];
      } else {
        var j := k - |a|;
        assert (a + b)[..k] == a + b[..j] && (a + b)[k] == b[j];
        ClipsFilesAppend(fs, t, opts, a, b[..j]);
      }
    }
  }

  /** One clip's processing changes no scan: its WAV goes into a source that is a directory, its archive outside. */
  lemma ClipStepKeepsCatalog(fs: FileMap, t: Tools, opts: Options, song: string, source: string, clip: ClipRef)
    requires IsDir(fs, SourceDir(song, source))
    ensures SameCatalog(fs, ClipFiles(fs, t, opts, song, source, clip))
  {
    var wav := SourceWav(song, source, clip.name);
    var extracted := AfterExtraction(fs, t.decode, opts, clip.video, wav);
    if extracted != fs {
      assert extracted == fs[wav := extracted[wav]];
      WavKeepsCatalog(fs, song, source, clip.name, extracted[wav]);
    }
    var after := ClipFiles(fs, t, opts, song, source, clip);
    if ClipStatus(fs, t, opts, song, source, clip) == Embedded {
      var p := ClipEmbeddingPath(song, source, clip.name);
      assert after == extracted[p := after[p]];
      OutsideKeepsCatalog(extracted, p, after[p]);
      SameCatalogTrans(fs, extracted, after);
    }
  }

  /** Processing clips that were found in source directories changes no scan. */
  lemma {:induction false} ClipsFilesKeepCatalog(fs: FileMap, t: Tools, opts: Options, items: seq<ClipItem>)
    requires forall c :: c in items ==> IsDir(fs, SourceDir(c.song, c.source))
    ensures SameCatalog(fs, ClipsFiles(fs, t, opts, items))
  {
    if items != [] {
      var init := items[..|items| - 1];
      var last := items[|items| - 1];
      assert forall c :: c in init ==> c in items;
      ClipsFilesKeepCatalog(fs, t, opts, init);
      var mid := ClipsFiles(fs, t, opts, init);
      assert ViewOf(fs, SourceDir(last.song, last.source)) == ViewOf(mid, SourceDir(last.song, last.source));
      ClipStepKeepsCatalog(mid, t, opts, last.song, last.source, last.clip);
      SameCatalogTrans(fs, mid, ClipsFiles(fs, t, opts, items));
    }
  }

  lemma {:induction false} ClipsAllEmbeddedFiles(fs: FileMap, t: Tools, opts: Options, items: seq<ClipItem>)
    requires !opts.refreshEmbeddings
    requires forall c :: c in items ==> Exists(fs, ClipEmbeddingPath(c.song, c.source, c.clip.name))
    ensures ClipsFiles(fs, t, opts, items) == fs
  {
    if items != [] {
      var init := items[..|items| - 1];
      assert forall c :: c in init ==> c in items;
      ClipsAllEmbeddedFiles(fs, t, opts, init);
      assert items[|items| - 1] in items;
    }
  }

  /** Without `--refresh-embeddings`, clips whose embedding is there already neither extract nor load, and change nothing. */
  lemma ClipsAllEmbedded(fs: FileMap, t: Tools, opts: Options, items: seq<ClipItem>)
    requires !opts.refreshEmbeddings
    requires forall c :: c in items ==> Exists(fs, ClipEmbeddingPath(c.song, c.source, c.clip.name))
    ensures ClipsFiles(fs, t, opts, items) == fs
    ensures forall k :: 0 <= k < |items| ==>
              ClipStatus(ClipsFiles(fs, t, opts, items[..k]), t, opts, items[k].song, items[k].source, items[k].clip) == AlreadyEmbedded
  {
    ClipsAllEmbeddedFiles(fs, t, opts, items);
    forall k | 0 <= k < |items| ensures ClipsFiles(fs, t, opts, items[..k]) == fs {
      assert forall c :: c in items[..k] ==> c in items;
      ClipsAllEmbeddedFiles(fs, t, opts, items[..k]);
    }
    assert forall k :: 0 <= k < |items| ==> items[k] in items;
  }

  /** The first `|items|` clips of `clips` were processed in order, starting from `fs` and ending in `files`. */
  ghost predicate ClipsDone(fs: FileMap, t: Tools, opts: Options, song: string, source: string, clips: seq<ClipRef>,
                            items: seq<ClipItem>, files: FileMap) {
    && |items| <= |clips|
    && JobsOf(items) == ClipJobs(song, source, clips[..|items|])
    && ClipsInOrder(fs, t, opts, items)
    && files == ClipsFiles(fs, t, opts, items)
  }

  lemma JobsStep(song: string, source: string, clips: seq<ClipRef>, items: seq<ClipItem>, status: ItemStatus)
    requires |items| < |clips| && JobsOf(items) == ClipJobs(song, source, clips[..|items|])
    ensures JobsOf(items + [ClipItem(song, source, clips[|items|], status)]) == ClipJobs(song, source, clips[..|items| + 1])
  {
    assert (items + [ClipItem(song, source, clips[|items|], status)])[..|items|] == items;
    assert clips[..|items| + 1][..|items|] == clips[..|items|];
  }

  lemma ClipsFilesStep(fs: FileMap, t: Tools, opts: Options, items: seq<ClipItem>, c: ClipItem)
    ensures ClipsFiles(fs, t, opts, items + [c]) == ClipFiles(ClipsFiles(fs, t, opts, items), t, opts, c.song, c.source, c.clip)
  {
    assert (items + [c])[..|items|] == items;
  }

  lemma ClipsInOrderStep(fs: FileMap, t: Tools, opts: Options, items: seq<ClipItem>, c: ClipItem)
    requires ClipsInOrder(fs, t, opts, items)
    requires c.status == ClipStatus(ClipsFiles(fs, t, opts, items), t, opts, c.song, c.source, c.clip)
    ensures ClipsInOrder(fs, t, opts, items + [c])
  {
    var next := items + [c];
    forall k | 0 <= k < |next|
      ensures next[k].status == ClipStatus(ClipsFiles(fs, t, opts, next[..k]), t, opts, next[k].song, next[k].source, next[k].clip)
    {
      if k < |items| {
        assert next[..k] == items[..k] && next[k] == items[k];
      } else {
        assert next[..k] == items;
      }
    }
  }

  lemma ClipsDoneStep(fs: FileMap, t: Tools, opts: Options, song: string, source: string, clips: seq<ClipRef>,
                      items: seq<ClipItem>, files: FileMap, status: ItemStatus)
    requires ClipsDone(fs, t, opts, song, source, clips, items, files) && |items| < |clips|
    requires status == ClipStatus(files, t, opts, song, source, clips[|items|])
    ensures ClipsDone(fs, t, opts, song, source, clips, items + [ClipItem(song, source, clips[|items|], status)],
                      ClipFiles(files, t, opts, song, source, clips[|items|]))
  {
    var c := ClipItem(song, source, clips[|items|], status);
    JobsStep(song, source, clips, items, status);
    ClipsFilesStep(fs, t, opts, items, c);
    ClipsInOrderStep(fs, t, opts, items, c);
  }

  /** Appending one item adds its own load and inference, and keeps it all-skipped only when it was skipped. */
  lemma ClipCountsStep(items: seq<ClipItem>, c: ClipItem)
    ensures ClipLoads(items + [c]) == ClipLoads(items) + (if Loads(c.status) then 1 else 0)
    ensures ClipInferences(items + [c]) == ClipInferences(items) + (if Infers(c.status) then 1 else 0)
    ensures AllSkipped(items + [c]) ==> AllSkipped(items) && c.status == AlreadyEmbedded
  {
    assert (items + [c])[..|items|] == items;
    assert c in items + [c];
    assert forall x :: x in items ==> x in items + [c];
  }

  /** The innermost loop of `main`: every clip of one source, in the order found. */
  method ProcessClips(ws: Workspace, opts: Options, song: string, source: string, clips: seq<ClipRef>)
    returns (items: seq<ClipItem>)
    modifies ws
    ensures JobsOf(items) == ClipJobs(song, source, clips)
    ensures ClipsInOrder(old(ws.files), ToolsOf(ws), opts, items)
    ensures ws.files == ClipsFiles(old(ws.files), ToolsOf(ws), opts, items)
    ensures ws.decodes == old(ws.decodes) + ClipsDecodes(old(ws.files), ToolsOf(ws), opts, items)
    ensures AllSkipped(items) ==> ws.decodes == old(ws.decodes)
    ensures ws.loads == old(ws.loads) + ClipLoads(items)
    ensures ws.embeds == old(ws.embeds) + ClipInferences(items)
  {
    ghost var fs0 := ws.files;
    items := [];
    while |items| < |clips|
      invariant ClipsDone(fs0, ToolsOf(ws), opts, song, source, clips, items, ws.files)
      invariant ws.decodes == old(ws.decodes) + ClipsDecodes(fs0, ToolsOf(ws), opts, items)
      invariant ws.loads == old(ws.loads) + ClipLoads(items)
      invariant ws.embeds == old(ws.embeds) + ClipInferences(items)
      decreases |clips| - |items|
    {
      var clip := clips[|items|];
      ghost var cur := ws.files;
      var status := ProcessClipEmbedding(ws, opts, song, source, clip.video, clip.name);
      ClipsDoneStep(fs0, ToolsOf(ws), opts, song, source, clips, items, cur, status);
      ClipCountsStep(items, ClipItem(song, source, clip, status));
      ClipsDecodesStep(fs0, ToolsOf(ws), opts, items, ClipItem(song, source, clip, status));
      items := items + [ClipItem(song, source, clip, status)];
    }
    ClipsDecodesBound(fs0, ToolsOf(ws), opts, items);
    assert clips[..|clips|] == clips;
  }

  /** Every item processed clips of the one song and source its jobs name. */
  lemma ClipJobsItems(items: seq<ClipItem>, song: string, source: string, clips: seq<ClipRef>)
    requires JobsOf(items) == ClipJobs(song, source, clips)
    ensures forall c :: c in items ==> c.song == song && c.source == source
  {
    forall c | c in items ensures c.song == song && c.source == source {
      var k :| 0 <= k < |items| && items[k] == c;
      assert JobsOf(items)[k] == ClipJobs(song, source, clips)[k];
    }
  }

  lemma JobsOfAppend(a: seq<ClipItem>, b: seq<ClipItem>)
    ensures JobsOf(a + b) == JobsOf(a) + JobsOf(b)
  {
    assert forall k :: 0 <= k < |a + b| ==> JobsOf(a + b)[k] == (JobsOf(a) + JobsOf(b))[k];
  }

  // ------------------------------------------------------------ the clip scans

  /** One source as `find_clips_in_source` listed it: `top` top-level videos first, then those one level down. */
  datatype SourceScan = SourceScan(source: string, clips: seq<ClipRef>, top: nat)

  /** One song as the clip pass scanned it: its `clips_*` directories in visiting order, then its sources in processing order. */
  datatype SongScan = SongScan(song: string, dirs: seq<string>, groups: seq<SourceScan>)

  function Sources(groups: seq<SourceScan>): (names: seq<string>)
    ensures |names| == |groups| && forall j :: 0 <= j < |groups| ==> names[j] == groups[j].source
  {
    if groups == [] then [] else Sources(groups[..|groups| - 1]) + [groups[|groups| - 1].source]
  }

  /** `g` is what `find_clips_in_source` answers for a source that looks like `v`. */
  ghost predicate Listed(v: SourceView, g: SourceScan) {
    && (v.present ==> v.isDir)
    && g.top <= |g.clips|
    && Enumerates(g.clips[..g.top], v.top)
    && Enumerates(g.clips[g.top..], v.nested)
  }

  /**
   * A clip scan of `sc.song` that raised nothing: the song directory lists
   * every `clips_*` directory once, the source names come sorted, and every
   * source was listed.
   */
  ghost predicate SongScanned(fs: FileMap, sc: SongScan) {
    && IsDir(fs, SongDir(sc.song))
    && Enumerates(sc.dirs, SourceDirs(fs, sc.song))
    && Sorted(Sources(sc.groups))
    && multiset(Sources(sc.groups)) == multiset(SourceNames(sc.dirs))
    && forall j :: 0 <= j < |sc.groups| ==> Listed(ViewOf(fs, SourceDir(sc.song, sc.groups[j].source)), sc.groups[j])
  }

  /** `iterdir` raises on a path that exists but is not a directory. */
  predicate Blocked(v: SourceView) {
    v.present && !v.isDir
  }

  /** Why the clip scan of `song` raises `e`: the song is no directory, or one of its source names leads to a file. */
  ghost predicate SongScanFails(fs: FileMap, song: string, e: ScanError) {
    || (!IsDir(fs, SongDir(song)) && e == NotADirectory(SongDir(song)))
    || (exists d :: d in SourceDirs(fs, song) && Blocked(ViewOf(fs, SourceDir(song, SourceName(d))))
                    && e == NotADirectory(SourceDir(song, SourceName(d))))
  }

  lemma SongScannedKept(fs: FileMap, gs: FileMap, sc: SongScan)
    requires SameCatalog(fs, gs) && SongScanned(gs, sc)
    ensures SongScanned(fs, sc)
  {
    assert SourceDirs(fs, sc.song) == SourceDirs(gs, sc.song);
    forall j | 0 <= j < |sc.groups|
      ensures Listed(ViewOf(fs, SourceDir(sc.song, sc.groups[j].source)), sc.groups[j])
    {
      assert ViewOf(fs, SourceDir(sc.song, sc.groups[j].source)) == ViewOf(gs, SourceDir(sc.song, sc.groups[j].source));
    }
  }

  lemma SongScanFailsKept(fs: FileMap, gs: FileMap, song: string, e: ScanError)
    requires SameCatalog(fs, gs) && SongScanFails(gs, song, e)
    ensures SongScanFails(fs, song, e)
  {
    assert IsDir(fs, SongDir(song)) == IsDir(gs, SongDir(song));
    if IsDir(gs, SongDir(song)) || e != NotADirectory(SongDir(song)) {
      var d :| d in SourceDirs(gs, song) && Blocked(ViewOf(gs, SourceDir(song, SourceName(d))))
               && e == NotADirectory(SourceDir(song, SourceName(d)));
      assert SourceDirs(fs, song) == SourceDirs(gs, song);
      assert ViewOf(fs, SourceDir(song, SourceName(d))) == ViewOf(gs, SourceDir(song, SourceName(d)));
    }
  }

  /** Each source name in the list comes from a `clips_*` directory; a blocked one makes the scan fail. */
  lemma BlockedSourceFails(fs: FileMap, song: string, dirs: seq<string>, sources: seq<string>, j: nat)
    requires Enumerates(dirs, SourceDirs(fs, song)) && multiset(sources) == multiset(SourceNames(dirs))
    requires j < |sources| && Blocked(ViewOf(fs, SourceDir(song, sources[j])))
    ensures SongScanFails(fs, song, NotADirectory(SourceDir(song, sources[j])))
  {
    assert sources[j] in multiset(SourceNames(dirs));
    var k :| 0 <= k < |dirs| && SourceNames(dirs)[k] == sources[j];
    assert dirs[k] in SourceDirs(fs, song);
  }

  /**
   * Where the clip scan of `sc.song` stops with `e`: the song is no
   * directory and nothing was listed; or its sources were taken in sorted
   * order, the first `|sc.groups|` were listed, and the next one leads to a
   * file.
   */
  ghost predicate SongScanStops(fs: FileMap, sc: SongScan, e: ScanError) {
    || (!IsDir(fs, SongDir(sc.song)) && e == NotADirectory(SongDir(sc.song)) && sc.groups == [])
    || (var names := SortStrings(SourceNames(sc.dirs));
        IsDir(fs, SongDir(sc.song))
        && Enumerates(sc.dirs, SourceDirs(fs, sc.song))
        && |sc.groups| < |names|
        && (forall j :: 0 <= j < |sc.groups| ==>
              sc.groups[j].source == names[j] && Listed(ViewOf(fs, SourceDir(sc.song, names[j])), sc.groups[j]))
        && Blocked(ViewOf(fs, SourceDir(sc.song, names[|sc.groups|])))
        && e == NotADirectory(SourceDir(sc.song, names[|sc.groups|])))
  }

  /** Sorted sources taken in order, listed up to a blocked one, make a stopped scan. */
  lemma SourcesStopped(fs: FileMap, song: string, dirs: seq<string>, sources: seq<string>, groups: seq<SourceScan>, e: ScanError)
    requires IsDir(fs, SongDir(song)) && Enumerates(dirs, SourceDirs(fs, song))
    requires Sorted(sources) && multiset(sources) == multiset(SourceNames(dirs))
    requires |groups| < |sources|
    requires forall j :: 0 <= j < |groups| ==> groups[j].source == sources[j] && Listed(ViewOf(fs, SourceDir(song, sources[j])), groups[j])
    requires Blocked(ViewOf(fs, SourceDir(song, sources[|groups|]))) && e == NotADirectory(SourceDir(song, sources[|groups|]))
    ensures SongScanStops(fs, SongScan(song, dirs, groups), e)
  {
    SortedUnique(sources, SortStrings(SourceNames(dirs)));
  }

  /** A scan that stops at some point is a scan that fails. */
  lemma SongScanStopsFails(fs: FileMap, sc: SongScan, e: ScanError)
    requires SongScanStops(fs, sc, e)
    ensures SongScanFails(fs, sc.song, e)
  {
    if IsDir(fs, SongDir(sc.song)) {
      BlockedSourceFails(fs, sc.song, sc.dirs, SortStrings(SourceNames(sc.dirs)), |sc.groups|);
    }
  }

  lemma SongScanStopsKept(fs: FileMap, gs: FileMap, sc: SongScan, e: ScanError)
    requires SameCatalog(fs, gs) && SongScanStops(gs, sc, e)
    ensures SongScanStops(fs, sc, e)
  {
    assert IsDir(fs, SongDir(sc.song)) == IsDir(gs, SongDir(sc.song));
    if IsDir(gs, SongDir(sc.song)) {
      var names := SortStrings(SourceNames(sc.dirs));
      assert SourceDirs(fs, sc.song) == SourceDirs(gs, sc.song);
      forall j | 0 <= j <= |sc.groups|
        ensures ViewOf(fs, SourceDir(sc.song, names[j])) == ViewOf(gs, SourceDir(sc.song, names[j]))
      {
      }
    }
  }

  /** The clips of the sources listed so far, in order. */
  function SourceJobs(song: string, groups: seq<SourceScan>): seq<ClipJob> {
    if groups == [] then []
    else SourceJobs(song, groups[..|groups| - 1]) + ClipJobs(song, groups[|groups| - 1].source, groups[|groups| - 1].clips)
  }

  /** The clips of the songs scanned so far, in order. */
  function AllJobs(scans: seq<SongScan>): seq<ClipJob> {
    if scans == [] then []
    else AllJobs(scans[..|scans| - 1]) + SourceJobs(scans[|scans| - 1].song, scans[|scans| - 1].groups)
  }

  // ------------------------------------------------------------ one song's clips

  /** The first `|groups|` of `sources` were listed and their clips processed in order, from `fs` to `files`. */
  ghost predicate SourcesDone(fs: FileMap, t: Tools, opts: Options, song: string, sources: seq<string>,
                              groups: seq<SourceScan>, items: seq<ClipItem>, files: FileMap) {
    && |groups| <= |sources|
    && (forall j :: 0 <= j < |groups| ==> groups[j].source == sources[j] && Listed(ViewOf(fs, SourceDir(song, sources[j])), groups[j]))
    && JobsOf(items) == SourceJobs(song, groups)
    && (forall c :: c in items ==> c.song == song)
    && ClipsInOrder(fs, t, opts, items)
    && files == ClipsFiles(fs, t, opts, items)
    && SameCatalog(fs, files)
  }

  /** The sources listed, one group per name, are the names themselves. */
  lemma SourcesOf(groups: seq<SourceScan>, sources: seq<string>)
    requires |groups| == |sources| && forall j :: 0 <= j < |groups| ==> groups[j].source == sources[j]
    ensures Sources(groups) == sources
  {
  }

  lemma ListedStep(fs: FileMap, song: string, sources: seq<string>, groups: seq<SourceScan>, g: SourceScan)
    requires |groups| < |sources| && g.source == sources[|groups|]
    requires forall j :: 0 <= j < |groups| ==> groups[j].source == sources[j] && Listed(ViewOf(fs, SourceDir(song, sources[j])), groups[j])
    requires Listed(ViewOf(fs, SourceDir(song, g.source)), g)
    ensures forall j :: 0 <= j < |groups + [g]| ==>
              (groups + [g])[j].source == sources[j] && Listed(ViewOf(fs, SourceDir(song, sources[j])), (groups + [g])[j])
  {
    var next := groups + [g];
    forall j | 0 <= j < |next| ensures next[j].source == sources[j] && Listed(ViewOf(fs, SourceDir(song, sources[j])), next[j]) {
      if j < |groups| {
        assert next[j] == groups[j];
      }
    }
  }

  lemma SourceJobsStep(song: string, groups: seq<SourceScan>, g: SourceScan, items: seq<ClipItem>, more: seq<ClipItem>)
    requires JobsOf(items) == SourceJobs(song, groups) && JobsOf(more) == ClipJobs(song, g.source, g.clips)
    ensures JobsOf(items + more) == SourceJobs(song, groups + [g])
  {
    assert (groups + [g])[..|groups|] == groups;
    JobsOfAppend(items, more);
  }

  lemma ClipsStep(fs: FileMap, t: Tools, opts: Options, items: seq<ClipItem>, files: FileMap, more: seq<ClipItem>)
    requires ClipsInOrder(fs, t, opts, items) && files == ClipsFiles(fs, t, opts, items) && SameCatalog(fs, files)
    requires ClipsInOrder(files, t, opts, more)
    requires forall c :: c in more ==> IsDir(files, SourceDir(c.song, c.source))
    ensures ClipsInOrder(fs, t, opts, items + more)
    ensures ClipsFiles(files, t, opts, more) == ClipsFiles(fs, t, opts, items + more)
    ensures SameCatalog(fs, ClipsFiles(files, t, opts, more))
  {
    ClipsInOrderAppend(fs, t, opts, items, more);
    ClipsFilesAppend(fs, t, opts, items, more);
    ClipsFilesKeepCatalog(files, t, opts, more);
    SameCatalogTrans(fs, files, ClipsFiles(files, t, opts, more));
  }

  lemma SourcesDoneStep(fs: FileMap, t: Tools, opts: Options, song: string, sources: seq<string>,
                        groups: seq<SourceScan>, items: seq<ClipItem>, files: FileMap, g: SourceScan, more: seq<ClipItem>)
    requires SourcesDone(fs, t, opts, song, sources, groups, items, files)
    requires |groups| < |sources| && g.source == sources[|groups|]
    requires Listed(ViewOf(files, SourceDir(song, g.source)), g)
    requires g.clips != [] ==> IsDir(files, SourceDir(song, g.source))
    requires JobsOf(more) == ClipJobs(song, g.source, g.clips)
    requires ClipsInOrder(files, t, opts, more)
    ensures SourcesDone(fs, t, opts, song, sources, groups + [g], items + more, ClipsFiles(files, t, opts, more))
  {
    assert ViewOf(fs, SourceDir(song, g.source)) == ViewOf(files, SourceDir(song, g.source));
    ListedStep(fs, song, sources, groups, g);
    SourceJobsStep(song, groups, g, items, more);
    ClipJobsItems(more, song, g.source, g.clips);
    ClipsStep(fs, t, opts, items, files, more);
  }

  /** One source's turn in the clip pass of `main`: list its clips, then process each one. */
  method ProcessSource(ws: Workspace, opts: Options, song: string, source: string)
    returns (r: Result<seq<ClipItem>, ScanError>, ghost g: SourceScan)
    modifies ws
    ensures r.Err? <==> Blocked(ViewOf(old(ws.files), SourceDir(song, source)))
    ensures r.Err? ==> r.error == NotADirectory(SourceDir(song, source)) && ws.files == old(ws.files)
    ensures r.Err? ==> ws.decodes == old(ws.decodes) && ws.loads == old(ws.loads) && ws.embeds == old(ws.embeds)
    ensures r.Ok? ==> g.source == source && Listed(ViewOf(old(ws.files), SourceDir(song, source)), g)
    ensures r.Ok? && g.clips != [] ==> IsDir(old(ws.files), SourceDir(song, source))
    ensures r.Ok? ==> JobsOf(r.value) == ClipJobs(song, source, g.clips)
    ensures r.Ok? ==> ClipsInOrder(old(ws.files), ToolsOf(ws), opts, r.value)
                      && ws.files == ClipsFiles(old(ws.files), ToolsOf(ws), opts, r.value)
    ensures r.Ok? ==> ws.loads == old(ws.loads) + ClipLoads(r.value) && ws.embeds == old(ws.embeds) + ClipInferences(r.value)
    ensures r.Ok? ==> ws.decodes == old(ws.decodes) + ClipsDecodes(old(ws.files), ToolsOf(ws), opts, r.value)
    ensures r.Ok? && AllSkipped(r.value) ==> ws.decodes == old(ws.decodes)
  {
    var clips, top := FindClipsInSource(ws.files, song, source);
    g := SourceScan(source, [], 0);
    if clips.Err? {
      return Err(clips.error), g;
    }
    g := SourceScan(source, clips.value, top);
    var items := ProcessClips(ws, opts, song, source, clips.value);
    return Ok(items), g;
  }

  /**
   * The loop over the sources of one song in `main`, stopped by the first
   * source that cannot be listed. `groups` are the sources listed and
   * `done` the clips processed, also when the loop stops early.
   */
  method ProcessSources(ws: Workspace, opts: Options, song: string, sources: seq<string>)
    returns (r: Result<seq<ClipItem>, ScanError>, ghost groups: seq<SourceScan>, ghost done: seq<ClipItem>)
    modifies ws
    ensures SourcesDone(old(ws.files), ToolsOf(ws), opts, song, sources, groups, done, ws.files)
    ensures r.Ok? ==> r.value == done && |groups| == |sources|
    ensures r.Err? ==> |groups| < |sources| && Blocked(ViewOf(old(ws.files), SourceDir(song, sources[|groups|])))
                       && r.error == NotADirectory(SourceDir(song, sources[|groups|]))
    ensures ws.loads == old(ws.loads) + ClipLoads(done) && ws.embeds == old(ws.embeds) + ClipInferences(done)
    ensures ws.decodes == old(ws.decodes) + ClipsDecodes(old(ws.files), ToolsOf(ws), opts, done)
    ensures AllSkipped(done) ==> ws.decodes == old(ws.decodes)
  {
    ghost var fs0 := ws.files;
    var items: seq<ClipItem> := [];
    groups := [];
    var j := 0;
    while j < |sources|
      invariant j == |groups|
      invariant SourcesDone(fs0, ToolsOf(ws), opts, song, sources, groups, items, ws.files)
      invariant ws.decodes == old(ws.decodes) + ClipsDecodes(fs0, ToolsOf(ws), opts, items)
      invariant ws.loads == old(ws.loads) + ClipLoads(items)
      invariant ws.embeds == old(ws.embeds) + ClipInferences(items)
    {
      ghost var cur := ws.files;
      ghost var g;
      var more;
      more, g := ProcessSource(ws, opts, song, sources[j]);
      if more.Err? {
        assert ViewOf(fs0, SourceDir(song, sources[j])) == ViewOf(cur, SourceDir(song, sources[j]));
        ClipsDecodesBound(fs0, ToolsOf(ws), opts, items);
        return Err(more.error), groups, items;
      }
      SourcesDoneStep(fs0, ToolsOf(ws), opts, song, sources, groups, items, cur, g, more.value);
      ClipCountsAppend(items, more.value);
      ClipsDecodesAppend(fs0, ToolsOf(ws), opts, items, more.value);
      items, groups, j := items + more.value, groups + [g], j + 1;
    }
    ClipsDecodesBound(fs0, ToolsOf(ws), opts, items);
    return Ok(items), groups, items;
  }

  /**
   * One song's turn in the clip pass of `main`: list its sources, then each
   * source's clips, and process every clip found. A scan that `iterdir`
   * cannot do raises and stops the run.
   */
  method ProcessSongClips(ws: Workspace, opts: Options, song: string)
    returns (r: Result<seq<ClipItem>, ScanError>, ghost sc: SongScan, ghost done: seq<ClipItem>)
    modifies ws
    ensures sc.song == song && SameCatalog(old(ws.files), ws.files)
    ensures r.Ok? ==> r.value == done && SongScanned(old(ws.files), sc)
    ensures r.Err? ==> SongScanStops(old(ws.files), sc, r.error) && SongScanFails(old(ws.files), song, r.error)
    ensures JobsOf(done) == SourceJobs(song, sc.groups) && forall c :: c in done ==> c.song == song
    ensures ClipsInOrder(old(ws.files), ToolsOf(ws), opts, done)
            && ws.files == ClipsFiles(old(ws.files), ToolsOf(ws), opts, done)
    ensures ws.loads == old(ws.loads) + ClipLoads(done) && ws.embeds == old(ws.embeds) + ClipInferences(done)
    ensures ws.decodes == old(ws.decodes) + ClipsDecodes(old(ws.files), ToolsOf(ws), opts, done)
    ensures AllSkipped(done) ==> ws.decodes == old(ws.decodes)
  {
    var sources, dirs := FindClipSources(ws.files, song);
    sc, done := SongScan(song, dirs, []), [];
    if sources.Err? {
      return Err(sources.error), sc, done;
    }
    var items, groups, listed := ProcessSources(ws, opts, song, sources.value);
    sc, done := SongScan(song, dirs, groups), listed;
    if items.Err? {
      SourcesStopped(old(ws.files), song, dirs, sources.value, groups, items.error);
      SongScanStopsFails(old(ws.files), sc, items.error);
      return Err(items.error), sc, done;
    }
    SourcesOf(groups, sources.value);
    return items, sc, done;
  }

  // ------------------------------------------------------------ the clip pass

  /** The first `|scans|` songs were scanned, on files that answer every scan as `fs` does. */
  ghost predicate ScansDone(fs: FileMap, songs: seq<string>, scans: seq<SongScan>) {
    && |scans| <= |songs|
    && forall i :: 0 <= i < |scans| ==> scans[i].song == songs[i] && SongScanned(fs, scans[i])
  }

  lemma ScansStep(fs: FileMap, files: FileMap, songs: seq<string>, scans: seq<SongScan>, sc: SongScan)
    requires ScansDone(fs, songs, scans) && |scans| < |songs|
    requires SameCatalog(fs, files) && sc.song == songs[|scans|] && SongScanned(files, sc)
    ensures ScansDone(fs, songs, scans + [sc])
  {
    SongScannedKept(fs, files, sc);
    var next := scans + [sc];
    forall i | 0 <= i < |next| ensures next[i].song == songs[i] && SongScanned(fs, next[i]) {
      if i < |scans| {
        assert next[i] == scans[i];
      }
    }
  }

  /** The first `|scans| - 1` songs were scanned, and the scan of the next one stopped with `e`. */
  ghost predicate ScansStopped(fs: FileMap, songs: seq<string>, scans: seq<SongScan>, e: ScanError) {
    && 0 < |scans| <= |songs|
    && (forall i :: 0 <= i < |scans| - 1 ==> scans[i].song == songs[i] && SongScanned(fs, scans[i]))
    && scans[|scans| - 1].song == songs[|scans| - 1]
    && SongScanStops(fs, scans[|scans| - 1], e)
  }

  lemma ScansStoppedStep(fs: FileMap, songs: seq<string>, scans: seq<SongScan>, sc: SongScan, e: ScanError)
    requires ScansDone(fs, songs, scans) && |scans| < |songs|
    requires sc.song == songs[|scans|] && SongScanStops(fs, sc, e)
    ensures ScansStopped(fs, songs, scans + [sc], e)
  {
    var next := scans + [sc];
    forall i | 0 <= i < |next| - 1 ensures next[i].song == songs[i] && SongScanned(fs, next[i]) {
      assert next[i] == scans[i];
    }
  }

  /** A clip pass that stops does so on a song of the list whose scan fails. */
  lemma ScansStoppedFails(fs: FileMap, songs: seq<string>, scans: seq<SongScan>, e: ScanError)
    requires ScansStopped(fs, songs, scans, e)
    ensures exists s :: s in songs && SongScanFails(fs, s, e)
  {
    SongScanStopsFails(fs, scans[|scans| - 1], e);
    assert songs[|scans| - 1] in songs;
  }

  lemma ScansStoppedKept(fs: FileMap, gs: FileMap, songs: seq<string>, scans: seq<SongScan>, e: ScanError)
    requires SameCatalog(fs, gs) && ScansStopped(gs, songs, scans, e)
    ensures ScansStopped(fs, songs, scans, e)
  {
    forall i | 0 <= i < |scans| - 1 ensures SongScanned(fs, scans[i]) {
      SongScannedKept(fs, gs, scans[i]);
    }
    SongScanStopsKept(fs, gs, scans[|scans| - 1], e);
  }

  /** The clips of the scanned songs were processed in order, from `fs` to `files`. */
  ghost predicate SongsClipsDone(fs: FileMap, t: Tools, opts: Options, songs: seq<string>,
                                 scans: seq<SongScan>, items: seq<ClipItem>, files: FileMap) {
    && |scans| <= |songs|
    && JobsOf(items) == AllJobs(scans)
    && (forall c :: c in items ==> c.song in songs[..|scans|])
    && ClipsInOrder(fs, t, opts, items)
    && files == ClipsFiles(fs, t, opts, items)
    && SameCatalog(fs, files)
  }

  lemma AllJobsStep(scans: seq<SongScan>, sc: SongScan, items: seq<ClipItem>, more: seq<ClipItem>)
    requires JobsOf(items) == AllJobs(scans) && JobsOf(more) == SourceJobs(sc.song, sc.groups)
    ensures JobsOf(items + more) == AllJobs(scans + [sc])
  {
    assert (scans + [sc])[..|scans|] == scans;
    JobsOfAppend(items, more);
  }

  lemma SongsOfStep(songs: seq<string>, n: nat, items: seq<ClipItem>, more: seq<ClipItem>)
    requires n < |songs| && (forall c :: c in items ==> c.song in songs[..n]) && forall c :: c in more ==> c.song == songs[n]
    ensures forall c :: c in items + more ==> c.song in songs[..n + 1]
  {
    assert songs[..n + 1] == songs[..n] + [songs[n]];
  }

  lemma ClipsChain(fs: FileMap, t: Tools, opts: Options, items: seq<ClipItem>, files: FileMap, more: seq<ClipItem>)
    requires ClipsInOrder(fs, t, opts, items) && files == ClipsFiles(fs, t, opts, items) && SameCatalog(fs, files)
    requires ClipsInOrder(files, t, opts, more) && SameCatalog(files, ClipsFiles(files, t, opts, more))
    ensures ClipsInOrder(fs, t, opts, items + more)
    ensures ClipsFiles(files, t, opts, more) == ClipsFiles(fs, t, opts, items + more)
    ensures SameCatalog(fs, ClipsFiles(files, t, opts, more))
  {
    ClipsInOrderAppend(fs, t, opts, items, more);
    ClipsFilesAppend(fs, t, opts, items, more);
    SameCatalogTrans(fs, files, ClipsFiles(files, t, opts, more));
  }

  lemma SongsClipsDoneStep(fs: FileMap, t: Tools, opts: Options, songs: seq<string>, scans: seq<SongScan>,
                           items: seq<ClipItem>, files: FileMap, sc: SongScan, more: seq<ClipItem>)
    requires SongsClipsDone(fs, t, opts, songs, scans, items, files) && |scans| < |songs|
    requires JobsOf(more) == SourceJobs(sc.song, sc.groups) && forall c :: c in more ==> c.song == songs[|scans|]
    requires ClipsInOrder(files, t, opts, more) && SameCatalog(files, ClipsFiles(files, t, opts, more))
    ensures SongsClipsDone(fs, t, opts, songs, scans + [sc], items + more, ClipsFiles(files, t, opts, more))
  {
    AllJobsStep(scans, sc, items, more);
    SongsOfStep(songs, |scans|, items, more);
    ClipsChain(fs, t, opts, items, files, more);
  }

  /**
   * The clip pass of `main`: every song's sources and clips, in the order
   * of `songs`. A scan that `iterdir` cannot do stops the run.
   */
  method ProcessAllClips(ws: Workspace, opts: Options, songs: seq<string>)
    returns (r: Result<seq<ClipItem>, ScanError>, ghost scans: seq<SongScan>, ghost done: seq<ClipItem>)
    modifies ws
    ensures SongsClipsDone(old(ws.files), ToolsOf(ws), opts, songs, scans, done, ws.files)
    ensures r.Ok? ==> r.value == done && |scans| == |songs| && ScansDone(old(ws.files), songs, scans)
    ensures r.Err? ==> ScansStopped(old(ws.files), songs, scans, r.error)
    ensures r.Err? ==> exists s :: s in songs && SongScanFails(old(ws.files), s, r.error)
    ensures ws.loads == old(ws.loads) + ClipLoads(done) && ws.embeds == old(ws.embeds) + ClipInferences(done)
    ensures ws.decodes == old(ws.decodes) + ClipsDecodes(old(ws.files), ToolsOf(ws), opts, done)
    ensures AllSkipped(done) ==> ws.decodes == old(ws.decodes)
  {
    ghost var fs0 := ws.files;
    var items: seq<ClipItem> := [];
    scans := [];
    var i := 0;
    while i < |songs|
      invariant i == |scans|
      invariant ScansDone(fs0, songs, scans)
      invariant SongsClipsDone(fs0, ToolsOf(ws), opts, songs, scans, items, ws.files)
      invariant ws.decodes == old(ws.decodes) + ClipsDecodes(fs0, ToolsOf(ws), opts, items)
      invariant ws.loads == old(ws.loads) + ClipLoads(items)
      invariant ws.embeds == old(ws.embeds) + ClipInferences(items)
    {
      ghost var cur := ws.files;
      ghost var sc, listed;
      var more;
      more, sc, listed := ProcessSongClips(ws, opts, songs[i]);
      SongsClipsDoneStep(fs0, ToolsOf(ws), opts, songs, scans, items, cur, sc, listed);
      ClipCountsAppend(items, listed);
      ClipsDecodesAppend(fs0, ToolsOf(ws), opts, items, listed);
      if more.Err? {
        SongScanStopsKept(fs0, cur, sc, more.error);
        ScansStoppedStep(fs0, songs, scans, sc, more.error);
        ScansStoppedFails(fs0, songs, scans + [sc], more.error);
        ClipsDecodesBound(fs0, ToolsOf(ws), opts, items + listed);
        return Err(more.error), scans + [sc], items + listed;
      }
      ScansStep(fs0, cur, songs, scans, sc);
      items, scans, i := items + more.value, scans + [sc], i + 1;
    }
    ClipsDecodesBound(fs0, ToolsOf(ws), opts, items);
    return Ok(items), scans, items;
  }

  lemma ScansDoneKept(fs: FileMap, gs: FileMap, songs: seq<string>, scans: seq<SongScan>)
    requires SameCatalog(fs, gs) && ScansDone(gs, songs, scans)
    ensures ScansDone(fs, songs, scans)
  {
    forall i | 0 <= i < |scans| ensures SongScanned(fs, scans[i]) {
      SongScannedKept(fs, gs, scans[i]);
    }
  }

  // ------------------------------------------------------------ main

  /** The files the clip pass starts from: what the song pass left, or the files as found with `--clips-only`. */
  function AfterSongs(fs: FileMap, t: Tools, opts: Options, songs: seq<string>): FileMap {
    if opts.clipsOnly then fs else SongsFiles(fs, t, opts, songs)
  }

  /** Every song of the catalog, and every clip in `clips`, has its embedding archive already. */
  ghost predicate CatalogEmbedded(fs: FileMap, clips: seq<ClipItem>) {
    && (forall s :: s in SongIds(fs) ==> Exists(fs, SongEmbeddingPath(s)))
    && (forall c :: c in clips ==> Exists(fs, ClipEmbeddingPath(c.song, c.source, c.clip.name)))
  }

  /** On a catalog whose every song and clip is already embedded, a run without `--refresh-embeddings` loads nothing and writes nothing. */
  lemma BatchAllEmbedded(fs: FileMap, t: Tools, opts: Options, songs: seq<string>, songItems: seq<SongItem>, clipItems: seq<ClipItem>)
    requires !opts.refreshEmbeddings
    requires forall s :: s in songs ==> Exists(fs, SongEmbeddingPath(s))
    requires forall c :: c in clipItems ==> Exists(fs, ClipEmbeddingPath(c.song, c.source, c.clip.name))
    requires opts.clipsOnly ==> songItems == []
    requires !opts.clipsOnly ==> SongsInOrder(fs, t, opts, songs, songItems)
    requires ClipsInOrder(AfterSongs(fs, t, opts, songs), t, opts, clipItems)
    ensures AfterSongs(fs, t, opts, songs) == fs && ClipsFiles(fs, t, opts, clipItems) == fs
    ensures SongLoads(songItems) == 0 && SongInferences(songItems) == 0
    ensures ClipLoads(clipItems) == 0 && ClipInferences(clipItems) == 0 && AllSkipped(clipItems)
  {
    SongsAllEmbedded(fs, t, opts, songs);
    SongInferencesBound(songItems);
    ClipsAllEmbedded(fs, t, opts, clipItems);
    ClipInferencesBound(clipItems);
    assert forall c :: c in clipItems ==> c.status == AlreadyEmbedded by {
      forall c | c in clipItems ensures c.status == AlreadyEmbedded {
        var k :| 0 <= k < |clipItems| && clipItems[k] == c;
      }
    }
  }

  /** The song block of `main`: every studio track in order, unless `--clips-only`. */
  method SongPass(ws: Workspace, opts: Options, songs: seq<string>) returns (items: seq<SongItem>)
    modifies ws
    ensures opts.clipsOnly ==> items == []
    ensures !opts.clipsOnly ==> SongsInOrder(old(ws.files), ToolsOf(ws), opts, songs, items)
    ensures !opts.clipsOnly && Distinct(songs) ==>
              forall i :: 0 <= i < |songs| ==> items[i] == SongItem(songs[i], SongStatus(old(ws.files), ToolsOf(ws), opts, songs[i]))
    ensures ws.files == AfterSongs(old(ws.files), ToolsOf(ws), opts, songs) && SameCatalog(old(ws.files), ws.files)
    ensures ws.decodes == old(ws.decodes)
    ensures ws.loads == old(ws.loads) + SongLoads(items) && ws.embeds == old(ws.embeds) + SongInferences(items)
  {
    items := [];
    if !opts.clipsOnly {
      ghost var fs0 := ws.files;
      items := ProcessAllSongs(ws, opts, songs);
      if Distinct(songs) {
        SongsIndependent(fs0, ToolsOf(ws), opts, songs);
      }
      SongsFilesKeepCatalog(fs0, ToolsOf(ws), opts, songs);
    }
  }

  /**
   * The clip block of `main`, unless `--songs-only`. `fs` is any state on
   * which every scan answers as on the current files (the files before the
   * song block), and the scans are stated on it.
   */
  method ClipPass(ws: Workspace, opts: Options, songs: seq<string>, ghost fs: FileMap)
    returns (r: Result<seq<ClipItem>, ScanError>, ghost scans: seq<SongScan>, ghost done: seq<ClipItem>)
    requires SameCatalog(fs, ws.files)
    modifies ws
    ensures opts.songsOnly ==> r == Ok([]) && scans == [] && ws.files == old(ws.files) && ws.decodes == old(ws.decodes)
    ensures SongsClipsDone(old(ws.files), ToolsOf(ws), opts, songs, scans, done, ws.files)
    ensures forall c :: c in done ==> c.song in songs
    ensures r.Ok? ==> r.value == done
    ensures r.Ok? && !opts.songsOnly ==> |scans| == |songs| && ScansDone(fs, songs, scans)
    ensures r.Err? ==> !opts.songsOnly && ScansStopped(fs, songs, scans, r.error)
    ensures r.Err? ==> exists s :: s in songs && SongScanFails(fs, s, r.error)
    ensures ws.loads == old(ws.loads) + ClipLoads(done) && ws.embeds == old(ws.embeds) + ClipInferences(done)
    ensures ws.decodes == old(ws.decodes) + ClipsDecodes(old(ws.files), ToolsOf(ws), opts, done)
    ensures AllSkipped(done) ==> ws.decodes == old(ws.decodes)
  {
    scans, done := [], [];
    if opts.songsOnly {
      return Ok([]), scans, done;
    }
    ghost var cur := ws.files;
    r, scans, done := ProcessAllClips(ws, opts, songs);
    forall c | c in done ensures c.song in songs {
      assert c.song in songs[..|scans|];
    }
    if r.Err? {
      ScansStoppedKept(fs, cur, songs, scans, r.error);
      ScansStoppedFails(fs, songs, scans, r.error);
      return;
    }
    ScansDoneKept(fs, cur, songs, scans);
  }

  /**
   * What a run over the songs `trace.found` did, from `fs` to `files`: each
   * song's status on the files as found (none with `--clips-only`), then the
   * clips of the sources `scans` lists, in order, with their statuses on the
   * files the song block left, and the `decoded` extractions those clips ran.
   */
  ghost predicate BatchTrace(fs: FileMap, t: Tools, opts: Options, trace: Report, scans: seq<SongScan>, files: FileMap, decoded: int) {
    && (opts.clipsOnly ==> trace.songs == [])
    && (!opts.clipsOnly ==>
          |trace.songs| == |trace.found|
          && forall i :: 0 <= i < |trace.found| ==> trace.songs[i] == SongItem(trace.found[i], SongStatus(fs, t, opts, trace.found[i])))
    && JobsOf(trace.clips) == AllJobs(scans)
    && (forall c :: c in trace.clips ==> c.song in trace.found)
    && ClipsInOrder(AfterSongs(fs, t, opts, trace.found), t, opts, trace.clips)
    && files == ClipsFiles(AfterSongs(fs, t, opts, trace.found), t, opts, trace.clips)
    && decoded == ClipsDecodes(AfterSongs(fs, t, opts, trace.found), t, opts, trace.clips)
  }

  /**
   * The song block of `main`, then its clip block, on the songs found.
   * `scans` records what the clip pass listed and `done` the clips it
   * processed, also when a scan stops it.
   */
  method RunPasses(ws: Workspace, opts: Options, songs: seq<string>)
    returns (songItems: seq<SongItem>, r: Result<seq<ClipItem>, ScanError>, ghost scans: seq<SongScan>, ghost done: seq<ClipItem>)
    modifies ws
    ensures opts.clipsOnly ==> songItems == []
    ensures !opts.clipsOnly ==> SongsInOrder(old(ws.files), ToolsOf(ws), opts, songs, songItems)
    ensures Distinct(songs) ==> BatchTrace(old(ws.files), ToolsOf(ws), opts, Report(songs, songItems, done), scans, ws.files, ws.decodes - old(ws.decodes))
    ensures opts.songsOnly ==> r == Ok([]) && scans == [] && ws.decodes == old(ws.decodes)
    ensures r.Ok? ==> r.value == done
    ensures r.Ok? && !opts.songsOnly ==> |scans| == |songs| && ScansDone(old(ws.files), songs, scans)
    ensures r.Err? ==> !opts.songsOnly && ScansStopped(old(ws.files), songs, scans, r.error)
                       && exists s :: s in songs && SongScanFails(old(ws.files), s, r.error)
    ensures JobsOf(done) == AllJobs(scans) && forall c :: c in done ==> c.song in songs
    ensures ClipsInOrder(AfterSongs(old(ws.files), ToolsOf(ws), opts, songs), ToolsOf(ws), opts, done)
            && ws.files == ClipsFiles(AfterSongs(old(ws.files), ToolsOf(ws), opts, songs), ToolsOf(ws), opts, done)
    ensures ws.embeds == old(ws.embeds) + SongInferences(songItems) + ClipInferences(done)
            && ws.loads == old(ws.loads) + SongLoads(songItems) + ClipLoads(done)
    ensures ws.decodes == old(ws.decodes) + ClipsDecodes(AfterSongs(old(ws.files), ToolsOf(ws), opts, songs), ToolsOf(ws), opts, done)
    ensures AllSkipped(done) ==> ws.decodes == old(ws.decodes)
    ensures r.Ok? && !opts.refreshEmbeddings
            && (forall s :: s in songs ==> Exists(old(ws.files), SongEmbeddingPath(s)))
            && (forall c :: c in done ==> Exists(old(ws.files), ClipEmbeddingPath(c.song, c.source, c.clip.name)))
            ==> ws.files == old(ws.files) && ws.decodes == old(ws.decodes) && ws.loads == old(ws.loads) && ws.embeds == old(ws.embeds)
                && AllSkipped(done)
    ensures opts.songsOnly && opts.clipsOnly ==>
              ws.files == old(ws.files) && ws.decodes == old(ws.decodes)
              && ws.loads == old(ws.loads) && ws.embeds == old(ws.embeds)
  {
    ghost var fs0 := ws.files;
    ghost var t := ToolsOf(ws);
    songItems := SongPass(ws, opts, songs);
    r, scans, done := ClipPass(ws, opts, songs, fs0);
    if r.Ok? && !opts.refreshEmbeddings
       && (forall s :: s in songs ==> Exists(fs0, SongEmbeddingPath(s)))
       && (forall c :: c in done ==> Exists(fs0, ClipEmbeddingPath(c.song, c.source, c.clip.name)))
    {
      BatchAllEmbedded(fs0, t, opts, songs, songItems, done);
    }
  }

  /**
   * `main` once the catalog listed `songs`: both passes, then the report, or
   * the scan error that stopped the clip pass.
   */
  method RunOnSongs(ws: Workspace, opts: Options, songs: seq<string>)
    returns (r: Result<Report, RunError>, ghost trace: Report, ghost scans: seq<SongScan>)
    modifies ws
    ensures trace.found == songs
    ensures Distinct(songs) ==> BatchTrace(old(ws.files), ToolsOf(ws), opts, trace, scans, ws.files, ws.decodes - old(ws.decodes))
    ensures r.Ok? ==> r.value == trace
    ensures r.Err? ==> r.error.ScanFailed? && !opts.songsOnly && ScansStopped(old(ws.files), songs, scans, r.error.cause)
                       && exists s :: s in songs && SongScanFails(old(ws.files), s, r.error.cause)
    ensures r.Ok? && opts.songsOnly ==> trace.clips == [] && ws.decodes == old(ws.decodes)
    ensures r.Ok? && !opts.songsOnly ==> |scans| == |songs| && ScansDone(old(ws.files), songs, scans)
    ensures ws.embeds == old(ws.embeds) + SongInferences(trace.songs) + ClipInferences(trace.clips)
            && ws.loads == old(ws.loads) + SongLoads(trace.songs) + ClipLoads(trace.clips)
    ensures r.Ok? && !opts.refreshEmbeddings
            && (forall s :: s in songs ==> Exists(old(ws.files), SongEmbeddingPath(s)))
            && (forall c :: c in trace.clips ==> Exists(old(ws.files), ClipEmbeddingPath(c.song, c.source, c.clip.name)))
            ==> ws.files == old(ws.files) && ws.decodes == old(ws.decodes) && ws.loads == old(ws.loads) && ws.embeds == old(ws.embeds)
                && AllSkipped(trace.clips)
    ensures opts.songsOnly && opts.clipsOnly ==>
              ws.files == old(ws.files) && ws.decodes == old(ws.decodes)
              && ws.loads == old(ws.loads) && ws.embeds == old(ws.embeds)
  {
    var songItems, clips;
    ghost var done;
    songItems, clips, scans, done := RunPasses(ws, opts, songs);
    trace := Report(songs, songItems, done);
    if clips.Err? {
      return Err(ScanFailed(clips.error)), trace, scans;
    }
    return Ok(Report(songs, songItems, clips.value)), trace, scans;
  }

  /** The catalog lists and holds a song, so `main` reaches its song and clip blocks. */
  predicate HasSongs(fs: FileMap) {
    IsDir(fs, BaseDir) && SongIds(fs) != {}
  }

  /**
   * `main`: find the songs, embed the studio tracks unless `--clips-only`,
   * then the clips unless `--songs-only`. `trace` is the report of what was
   * done, also when a clip scan stops the run; `scans` records what the
   * clip pass listed.
   */
  method RunBatch(ws: Workspace, opts: Options)
    returns (r: Result<Report, RunError>, ghost trace: Report, ghost scans: seq<SongScan>)
    modifies ws
    ensures !IsDir(old(ws.files), BaseDir) ==> r.Err? && r.error.ScanFailed?
    ensures IsDir(old(ws.files), BaseDir) && SongIds(old(ws.files)) == {} ==> r == Err(NoSongs)
    ensures !HasSongs(old(ws.files)) ==>
              ws.files == old(ws.files) && ws.decodes == old(ws.decodes)
              && ws.loads == old(ws.loads) && ws.embeds == old(ws.embeds)
    ensures r.Err? && r.error.ScanFailed? && IsDir(old(ws.files), BaseDir) ==>
              !opts.songsOnly && ScansStopped(old(ws.files), trace.found, scans, r.error.cause)
              && exists s :: s in SongIds(old(ws.files)) && SongScanFails(old(ws.files), s, r.error.cause)
    ensures r.Err? && !r.error.ScanFailed? ==> ws.files == old(ws.files)
    ensures r.Ok? ==> HasSongs(old(ws.files)) && r.value == trace
    ensures HasSongs(old(ws.files)) ==>
              Sorted(trace.found) && Enumerates(trace.found, SongIds(old(ws.files))) && trace.found != []
              && BatchTrace(old(ws.files), ToolsOf(ws), opts, trace, scans, ws.files, ws.decodes - old(ws.decodes))
    ensures r.Ok? && opts.songsOnly ==> r.value.clips == [] && ws.decodes == old(ws.decodes)
    ensures r.Ok? && !opts.songsOnly ==> |scans| == |trace.found| && ScansDone(old(ws.files), trace.found, scans)
    ensures HasSongs(old(ws.files)) ==>
              ws.embeds == old(ws.embeds) + SongInferences(trace.songs) + ClipInferences(trace.clips)
              && ws.loads == old(ws.loads) + SongLoads(trace.songs) + ClipLoads(trace.clips)
    ensures r.Ok? && !opts.refreshEmbeddings && CatalogEmbedded(old(ws.files), r.value.clips)
            ==> ws.files == old(ws.files) && ws.decodes == old(ws.decodes) && ws.loads == old(ws.loads) && ws.embeds == old(ws.embeds)
                && AllSkipped(r.value.clips)
    ensures opts.songsOnly && opts.clipsOnly ==>
              ws.files == old(ws.files) && ws.decodes == old(ws.decodes)
              && ws.loads == old(ws.loads) && ws.embeds == old(ws.embeds)
  {
    scans, trace := [], Report([], [], []);
    var found := FindAllSongs(ws.files);
    if found.Err? {
      return Err(ScanFailed(found.error)), trace, scans;
    }
    var songs := found.value;
    if songs == [] {
      return Err(NoSongs), trace, scans;
    }
    assert songs[0] in SongIds(ws.files);
    r, trace, scans := RunOnSongs(ws, opts, songs);
  }
}
