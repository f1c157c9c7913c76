# Syntrack alignment and embedding pipeline, in Dafny

Syntrack finds where a short recording of a song (a phone or YouTube clip)
sits in the song's studio recording. Both tracks are turned into OpenL3
embeddings, one 512-dimensional vector every 0.1 s. Every clip frame votes
for its nearest studio frame, and the studio frame with the most votes gives
the reported second. Around this rule sit two scripts:

- `sync_simple.py` aligns one clip. It extracts the clip's WAV from its video
  when needed and can cache the studio embedding in an `.npz` file.
- `sync_multiple.py` walks the `clips_syntrack/` catalog. It embeds every
  studio track into `embeddings/songs/` and every clip into
  `embeddings/clips/<song>/`, skipping files that already exist.

`test.py` repeats the comparison with fixed paths; its `cdist`, `argmin`,
`bincount`, `argmax` chain (test.py:49-54) is the same `Alignment.Align`.

The model has eight modules, in one file each:

| module | file | contents |
|---|---|---|
| `Outcomes` | `outcomes.dfy` | `Option` and `Result` |
| `Text` | `text.dfy` | the string operations the scripts use: ASCII `lower`, `isdigit`, decimal formatting with `:02d`, `str.replace`, Python's `sorted` on strings |
| `Alignment` | `alignment.dfy` | the comparison: `cdist`, then `argmin(axis=1)`, then `bincount`, then `argmax`, then `int(ts[..])` |
| `Store` | `workspace.dfy` | the working directory as a map from paths to artifacts, and the class `Workspace` |
| `CacheKey` | `cache_key.dfy` | every path the scripts build, and the embedding file names that carry the extraction parameters |
| `Catalog` | `catalog.dfy` | `find_all_songs`, `find_clip_sources`, `find_clips_in_source` |
| `SyncMultiple` | `sync_multiple.dfy` | the batch script's per-item steps and `main` |
| `SyncSimple` | `sync_simple.dfy` | the single-clip script |

The class `Workspace` holds:

- the file map, which is what the scripts change;
- the foreign collaborators, as fixed functions:
  - moviepy's audio extraction;
  - librosa's load and normalize;
  - OpenL3's inference;
- ghost counters of how often each collaborator is called.

Skipping and cache reuse are stated with these counters. For example:

- a cache hit runs the model once instead of twice;
- an existing embedding means no extraction.

Directory listings (`iterdir`, `glob`) come in no particular order. The
scanners take the next entry from the set of entries not yet visited, so
their contracts hold for every visiting order.

Behaviour of the code that is easy to miss:

- **The reported second is truncated.** It is `int(ts[best])`, so a best
  frame at 4.2 s is reported as 4 (`Alignment.Align`, `AlignReportsTruncatedSecond`).
- **The studio track is decoded even on a cache hit.** `sync_simple.py`
  calls `librosa.load` on it before the cache decision. A cache hit therefore
  saves an inference but not a decode (`SyncSimple.Compare`: two loads in every
  successful run).
- **The two batch switches are not exclusive.** `--songs-only` and
  `--clips-only` may both be given. Together they process nothing
  (`SyncMultiple.RunBatch`).
- **Source names can break.** `find_clip_sources` removes every `clips_` in a
  directory name, not only the prefix. A directory `clips_a_clips_b` gives the
  source `a_b`, whose clips are then looked for in `clips_a_b`
  (`Catalog.SourceNameDropsEveryOccurrence`).
- **The two scripts name clips differently.** The single-clip script names
  clips `<song>_clipNN`, and the batch filter rejects that name
  (`Catalog.SingleClipNamingRejected`).
- **Clip embedding names carry no parameters.** They do not record the
  extraction parameters. A clip stem found both at top level and in a
  subfolder of one source maps to one WAV and one embedding file.
- **Clip embedding names can collide across sources.** The name
  `<source>_<clip>.npz` (sync_multiple.py:178) joins the two with `_` and no
  escaping, and either may contain `_`. Source `x_clip01` with clip `clip02`
  and source `x` with clip `clip01_clip02` both give `x_clip01_clip02.npz`.
  The later clip then overwrites the earlier one's archive, or, without
  `--refresh-embeddings`, is skipped as already embedded
  (`Catalog.ClipEmbeddingNamesCollide`).
- **Cache names carry only three parameters.** Both scripts also pass
  `input_repr="mel256"` and `content_type="music"` to OpenL3
  (sync_simple.py:86, sync_multiple.py:159, sync_multiple.py:199), and no
  file name records them. `CacheKey.EmbeddingFileNameSeparatesParams`
  separates names by embedding size, sample rate and hop size only.

## Model

| member | source | states |
|---|---|---|
| Alignment.SqDist | sync_simple.py:103 | the squared Euclidean distance standing in for `cdist`'s Euclidean one is zero exactly for equal vectors (same order of distances, no square root needed) |
| Alignment.DistanceMatrix | sync_simple.py:103 | one row per clip frame and one column per studio frame, entry `(i, j)` the distance of clip frame `i` to studio frame `j` |
| Alignment.ArgMin | sync_simple.py:104 | `np.argmin` of a non-empty row: an index of a minimal entry, every earlier entry strictly larger (first minimum wins) |
| Alignment.FirstMinUnique | sync_simple.py:104 | the first minimum of a row is unique, so `IsFirstMin` pins down `argmin`'s answer |
| Alignment.BestPerFrame | sync_simple.py:104 | `argmin(axis=1)`: exactly one entry per clip frame, each the first minimiser of its row and a valid studio index |
| Alignment.Count | sync_simple.py:105 | the number of votes for a value is positive exactly when the value was voted for |
| Alignment.CountIsMultiplicity | sync_simple.py:105 | the vote count of a value is its multiplicity in the multiset of votes |
| Alignment.BinCount | sync_simple.py:105 | `np.bincount`: empty for no votes, otherwise length max+1 with a non-zero last bin, each bin the number of votes for its index |
| Alignment.SumOfBins | sync_simple.py:105 | the first `n` bins add up to the number of votes below `n` |
| Alignment.BinCountTotal | sync_simple.py:105 | the bins of `bincount` add up to the number of clip frames |
| Alignment.ArgMax | sync_simple.py:105 | `np.argmax` of a non-empty sequence: a maximal entry with every earlier entry strictly smaller |
| Alignment.VoteWinnerUnique | sync_simple.py:105 | at most one value wins the vote (most votes, ties to the lowest index) |
| Alignment.ArgMaxBinCountIsWinner | sync_simple.py:105 | `argmax(bincount(votes))` is `k` if and only if `k` has at least as many votes as every value and strictly more than every smaller one |
| Alignment.Vote | sync_simple.py:103-105 | the vote fails exactly for an empty reference or an empty clip; otherwise the winner is a valid studio index and the vote winner of `BestPerFrame` |
| Alignment.Trunc | sync_simple.py:107 | `int(x)` truncates towards zero: the largest integer not above a non-negative `x`, the smallest not below a negative one |
| Alignment.NearestFrames | test.py:49-50 | `minimos` in the test script (the same chain as `best_per_frame` in the single-clip script): one entry per clip frame, each a valid reference index and the first minimiser of its distance row |
| Alignment.Align | sync_simple.py:103-107 | the comparison raises for mismatched dimensions, empty reference or empty clip and succeeds otherwise; the winning frame indexes `ts_song`, is the vote winner of the nearest frames, and the second is `int(ts_song[frame])` |
| Alignment.CountConstant | sync_simple.py:105 | a sequence of identical votes gives that value all the votes |
| Alignment.VoteUnanimous | sync_simple.py:103-105 | when every clip frame's first minimum is the same studio frame, that frame wins |
| Alignment.VoteSingleFrame | sync_simple.py:103-105 | with a single clip frame the winner is that frame's nearest studio frame |
| Alignment.VoteTieGoesToLowerIndex | sync_simple.py:105 | two frames voting for studio frames 0 and 1 give frame 0: ties go to the lowest index |
| Alignment.CountOfDistinct | sync_simple.py:105 | in a sequence of distinct votes no value has more than one vote |
| Alignment.ExactFrameIsNearest | sync_simple.py:103-104 | a clip frame equal to a studio frame, among pairwise different studio frames, has that studio frame as its first minimum |
| Alignment.ExcerptFrameNearest | sync_simple.py:104 | such a clip frame votes for that studio frame |
| Alignment.ExcerptFramesNearest | sync_simple.py:104 | the frames of an exact excerpt at offset `o` vote for `o, o + 1, ...` in turn |
| Alignment.ConsecutiveVotesElectFirst | sync_simple.py:105 | votes `o, o + 1, ...` elect `o`: one vote each, ties to the lowest index |
| Alignment.AlignExcerpt | sync_simple.py:103-107 | a clip cut out of the studio embedding at offset `o` (distinct studio frames) aligns to frame `o` and reports `int(ts[o])` |
| Alignment.AlignReportsTruncatedSecond | sync_simple.py:107 | with timestamps every 0.1 s and frame 42 nearest for every clip frame, the report is frame 42 and second 4, not 4.2 |
| Text.Lower | sync_multiple.py:96 | `str.lower` on ASCII: same length, each letter mapped to its lower case |
| Text.NatToString | sync_simple.py:48 | decimal formatting of a natural: at least one digit, digits only, no leading zero |
| Text.NatToStringRoundTrip | sync_simple.py:48 | reading the decimal digits back gives the number |
| Text.NatToStringInjective | sync_simple.py:48 | two numbers print differently unless they are equal |
| Text.Pad2 | sync_simple.py:42 | `f"{n:02d}"`: two digits spelling `n` for 0..99, plain digits from 100, a minus sign then the digits below 0 |
| Text.RemoveAll | sync_multiple.py:79 | `str.replace(pat, "")` never lengthens the string |
| Text.RemoveAllFree | sync_multiple.py:79 | a string holding no occurrence of the pattern is left unchanged |
| Text.RemoveAllFirst | sync_multiple.py:79 | the text before the first occurrence is kept, that occurrence is dropped and the scan goes on after it; with `RemoveAllFree` this fixes the result on every string |
| Text.RemoveAllPrefixOnly | sync_multiple.py:79 | removing a leading pattern from a name with no other occurrence gives the rest of the name |
| Text.LexLeReflexive | sync_multiple.py:70 | Python's string order is reflexive |
| Text.LexLeTotal | sync_multiple.py:70 | Python's string order is total |
| Text.LexLeTransitive | sync_multiple.py:70 | Python's string order is transitive |
| Text.LexLeAntisymmetric | sync_multiple.py:70 | Python's string order is antisymmetric |
| Text.Insert | sync_multiple.py:70 | inserting into a sorted list keeps it sorted and adds exactly the new element |
| Text.SortedHeadLeast | sync_multiple.py:70 | the head of a sorted list comes first among its elements |
| Text.SortedTail | sync_multiple.py:70 | the tail of a sorted list is sorted and holds every element but the head |
| Text.SortedHeads | sync_multiple.py:70 | two sorted arrangements of one multiset share their head and continue with sorted arrangements of one multiset |
| Text.SortStrings | sync_multiple.py:70 | `sorted(list)`: the result is sorted and a permutation of the input |
| Text.SortedUnique | sync_multiple.py:82 | two sorted lists with the same elements are equal, so `sorted` does not depend on the visiting order |
| Store.StoreKeepsPaths | sync_simple.py:66 | writing a file keeps every existing path existing and makes the written one exist |
| Store.AudioTrack | sync_simple.py:66 | moviepy reads an audio track only from a path holding a file |
| Store.Decoded | sync_simple.py:72-73 | librosa decodes only a path holding a file |
| Store.StoredEmbedding | sync_simple.py:79-81 | `np.load` gives an embedding exactly when the path holds an embedding archive |
| Store.Workspace.ExtractAudio | sync_simple.py:66 | one extraction call; on success the WAV holds the video's audio track, on failure nothing changes |
| Store.Workspace.LoadAudio | sync_simple.py:72 | one decode call, the decoded audio of the path, files unchanged |
| Store.Workspace.Embed | sync_simple.py:84-88 | one inference call, its result, files unchanged |
| Store.Workspace.LoadEmbedding | sync_simple.py:79 | the archive stored at the path, if any |
| Store.Workspace.SaveEmbedding | sync_simple.py:90 | the archive is written at the path, nothing else changes, no collaborator is called |
| CacheKey.EmbeddingFileName | sync_simple.py:47-49 | the cache file name starts with the song id |
| CacheKey.DigitRunOf | sync_simple.py:48 | a decimal number followed by a non-digit is read off as exactly that many digits |
| CacheKey.DigitsThenStop | sync_simple.py:48 | a decimal number and the text after its terminating letter are recovered uniquely |
| CacheKey.DropPrefix | sync_simple.py:48 | equal names with equal-length heads agree in head and tail |
| CacheKey.DropSuffix | sync_simple.py:48 | equal names with equal-length tails agree in head and tail |
| CacheKey.EmbeddingFileNameSeparatesParams | sync_simple.py:47-49 | for one song, a different embedding size, sample rate or hop size gives a different cache file; the name does not encode the input representation or content type |
| CacheKey.EmbeddingFileNameSeparatesSongs | sync_multiple.py:138 | under the same parameters two songs never share an embedding file |
| CacheKey.EmbeddingPathsApart | sync_multiple.py:137-138 | song embeddings, clip embeddings and the studio tracks and WAVs they come from are different paths |
| Catalog.DistinctMultiplicity | sync_multiple.py:66-68 | each element of a duplicate-free list occurs once |
| Catalog.SortedListingUnique | sync_multiple.py:70 | a sorted duplicate-free list of a set of names is the same list whatever order the names were visited in |
| Catalog.SortedDistinct | sync_multiple.py:70 | sorting a duplicate-free list keeps it duplicate-free |
| Catalog.SingleOccurrence | sync_multiple.py:70 | in a duplicate-free list two positions holding the same element are one position |
| Catalog.FindAllSongs | sync_multiple.py:60-70 | a missing base directory stops the script; otherwise the result is sorted and lists each directory with a `cancion_estudio` entry exactly once and nothing else |
| Catalog.SourceNames | sync_multiple.py:79-80 | one source name per `clips_` directory, in visiting order |
| Catalog.FindClipSources | sync_multiple.py:72-82 | fails exactly when the song directory cannot be listed; otherwise visits each `clips_` subdirectory once and returns their names with `clips_` removed, sorted |
| Catalog.SourceNameRebuildsDir | sync_multiple.py:79-86 | a `clips_<s>` directory with no other `clips_` in `s` is found again from its source name |
| Catalog.SourceNameDropsEveryOccurrence | sync_multiple.py:79-86 | `clips_a_clips_b` gives source `a_b`, which does not lead back to its directory |
| Catalog.Stem | sync_multiple.py:94 | `Path.stem` of an `.mp4` name: the name without the suffix |
| Catalog.FindClipsInSource | sync_multiple.py:84-114 | a missing source directory has no clips; a file in its place stops the script; otherwise the top-level clip videos come first, each once, then the clip videos exactly one subdirectory down, each once, each subdirectory's clips listed together (`GroupedBySubdir`) |
| Catalog.GroupedAppend | sync_multiple.py:103-112 | appending the clips of one subdirectory not visited before keeps every subdirectory's clips together |
| Catalog.TopLevelClips | sync_multiple.py:93-100 | each `.mp4` entry of the directory whose stem passes the clip filter appears exactly once |
| Catalog.ClipsOfSubdir | sync_multiple.py:105-112 | the same filter applied to one subdirectory, each match once |
| Catalog.NestedStep | sync_multiple.py:103-112 | visiting one more subdirectory adds exactly its clips to the nested listing |
| Catalog.ClipDepth | sync_multiple.py:93-114 | every clip found lies directly in the source directory or one level below, and passes the clip filter |
| Catalog.OutsideKeepsCatalog | sync_multiple.py:60-114 | a file stored outside `clips_syntrack/` changes no answer of the three scanners |
| Catalog.WavKeepsCatalog | sync_multiple.py:84-114 | a WAV extracted into `clips_<source>/wavs/` of a listed source changes no scanner answer: neither `wavs` nor a `.wav` name is a clip |
| Catalog.IsClipNameMeaning | sync_multiple.py:96-99 | a stem passes exactly when it has at least six characters, its first four spell `clip` in any case, and the fifth and sixth are digits |
| Catalog.ClipNamesAccepted | sync_multiple.py:96-99 | `clip01`, `clip99x` and `CLIP07_live` pass |
| Catalog.ClipNamesRejected | sync_multiple.py:96-99 | `clip1`, `introclip02` and `clipA1` are rejected |
| Catalog.SingleClipNamingRejected | sync_multiple.py:96-99 | `clocks_coldplay_clip04`, the single-clip script's naming, is rejected |
| Catalog.ClipEmbeddingNamesCollide | sync_multiple.py:178 | for any source `x` and clip stems `a` and `b`, the distinct sources `x_a` and `x` give clips `b` and `a_b`, both clip stems, the same embedding archive |
| SyncMultiple.ExtractAudioIfNeeded | sync_multiple.py:116-130 | decodes exactly when forced or when the WAV is missing; succeeds when it skips; the files change only by the WAV written |
| SyncMultiple.ExtractionIgnoresRefresh | sync_multiple.py:118 | whether and what it extracts does not depend on `--refresh-embeddings` |
| SyncMultiple.ProcessSongEmbedding | sync_multiple.py:132-168 | a missing studio track returns first; an existing embedding without refresh returns without loading; otherwise load, infer and save, each failure reported, with one load and at most one inference |
| SyncMultiple.ProcessClipEmbedding | sync_multiple.py:170-208 | the outcome and the files left are those `ClipStatus` and `ClipFiles` give for the starting files; one moviepy call exactly when the clip is not skipped and its WAV is missing or extraction is forced; one load per outcome that loads, one inference per outcome that infers |
| SyncMultiple.ClipStatusMeaning | sync_multiple.py:170-208 | a clip is skipped exactly when its archive exists and no refresh is asked for, and then nothing changes; extraction fails exactly when one is due and moviepy cannot read the video, and then nothing changes; otherwise the WAV is loaded, normalised and embedded, and only a successful inference stores the archive; a clip is never `SourceMissing` |
| SyncMultiple.ProcessSongTwice | sync_multiple.py:146-148 | once a song is embedded, a second pass without refresh finds the embedding and runs nothing more |
| SyncMultiple.ProcessClipTwice | sync_multiple.py:181-183 | once a clip is embedded or found embedded, a second pass without refresh is skipped and neither extracts nor infers: the extraction and inference counts over both passes are the first pass's |
| SyncMultiple.SongInferencesBound | sync_multiple.py:233-234 | at most one inference per song and only after a load; no load at all when no song got past the early returns (which `SongsAllEmbedded` gives when every embedding exists) |
| SyncMultiple.ClipInferencesBound | sync_multiple.py:259-261 | at most one inference per clip and only after a load; no load at all when no clip got past the early return (which `ClipsAllEmbedded` gives when every embedding exists) |
| SyncMultiple.ClipCountsAppend | sync_multiple.py:251-261 | load and inference counts add up over consecutive batches of clips |
| SyncMultiple.ClipsDecodesAppend | sync_multiple.py:251-261 | the extractions of consecutive batches of clips add up, the second batch counted on the files the first left |
| SyncMultiple.ClipsDecodesBound | sync_multiple.py:180-186 | at most one moviepy extraction per clip, and none when every clip returned early as already embedded |
| SyncMultiple.ProcessAllSongs | sync_multiple.py:233-234 | one result per song, in order, each the outcome `process_song_embedding` reaches on the files the songs before it left; the files end as the fold of those steps; no extraction; loads and inferences as the results say |
| SyncMultiple.SongsIndependent | sync_multiple.py:233-234 | for distinct songs, the earlier songs do not change a later song's outcome: each song ends as it would on the starting files |
| SyncMultiple.SongsFilesWrites | sync_multiple.py:163-164 | after the song loop each song's embedding path holds what that song alone would have stored, and every other path is unchanged |
| SyncMultiple.SongsFilesKeepCatalog | sync_multiple.py:233-234 | the song loop changes nothing the song, source or clip scans read |
| SyncMultiple.SongsAllEmbedded | sync_multiple.py:145-148 | without refresh, when every song's embedding exists, the loop changes no file and no song reaches the loader |
| SyncMultiple.ProcessClips | sync_multiple.py:259-261 | one result per clip, in the order found, each the outcome `process_clip_embedding` reaches on the files the clips before it left; the files end as the fold of those steps; loads and inferences as the results say; one extraction for each clip that got past the skip check with its WAV missing or forced on the files at its turn (`ClipsDecodes`), so none when every clip was skipped |
| SyncMultiple.ClipStepKeepsCatalog | sync_multiple.py:170-208 | processing one clip of a listed source changes nothing the scans read: it writes a WAV under `wavs/` and an archive under `embeddings/` |
| SyncMultiple.ClipsFilesKeepCatalog | sync_multiple.py:259-261 | so processing any run of such clips keeps every scan's answer |
| SyncMultiple.ClipsAllEmbedded | sync_multiple.py:180-183 | without refresh, when every clip's embedding exists, processing the clips changes no file and every clip is skipped |
| SyncMultiple.ProcessSource | sync_multiple.py:251-261 | one source: stops exactly when a file stands where the source directory should be, and then changes no file and calls no tool; otherwise processes, in order, exactly the clips `find_clips_in_source` lists for it on the starting files, with the extractions (`ClipsDecodes`), loads and inferences of those clips |
| SyncMultiple.ProcessSources | sync_multiple.py:251-261 | the sources of one song in order, up to the first one blocked by a file. The stop names that source. The sources before it were listed as on the starting files. On success and on the stop alike, the clips processed are exactly the jobs of those listings, in order; the files are the fold of those clips; the extraction count (`ClipsDecodes`: one per clip past the skip check whose WAV is missing or forced), the load count and the inference count are those clips'; the scans' answers are unchanged |
| SyncMultiple.ProcessSongClips | sync_multiple.py:243-261 | one song. On success its sources and clips are what the scanners list on the starting files. On a stop (`SongScanStops`) either the song is no directory and nothing is processed, or the sources were taken in sorted order, those before the first blocked source were listed, and the error names that source. On both paths exactly the listed sources' clips are processed, in order, and the files, the extractions (`ClipsDecodes`), the loads and the inferences are their fold |
| SyncMultiple.SongScannedKept | sync_multiple.py:242-253 | a song's scan result stays valid on any files the scanners answer alike on |
| SyncMultiple.SongScanFailsKept | sync_multiple.py:242-253 | so does a scan failure |
| SyncMultiple.BlockedSourceFails | sync_multiple.py:86-103 | a listed source whose directory is a file makes the song's scan fail with that path |
| SyncMultiple.SourcesStopped | sync_multiple.py:72-103 | sorted sources, listed up to one blocked by a file, make a stopped scan that names that source |
| SyncMultiple.SongScanStopsFails | sync_multiple.py:72-103 | a stopped scan is a failing scan of that song |
| SyncMultiple.SongScanStopsKept | sync_multiple.py:242-253 | a stopped scan stays one on any files the scanners answer alike on |
| SyncMultiple.ScansStoppedFails | sync_multiple.py:242-253 | a clip pass that stopped did so on a song of the list whose scan fails |
| SyncMultiple.ScansStoppedKept | sync_multiple.py:242-253 | a stopped pass stays one on any files the scanners answer alike on |
| SyncMultiple.ProcessAllClips | sync_multiple.py:242-261 | the songs in order, up to the first song whose scan stops (`ScansStopped`). The songs before it were scanned as on the starting files. On success there is one scan per song. On success and on the stop alike, the clips processed are exactly the jobs of the scans made, including the sources listed before the stop, in order. Each clip's outcome is taken on the files the clips before it left. The extractions (`ClipsDecodes`: one per clip past the skip check whose WAV is missing or forced), loads and inferences are those clips'. The scans' answers never change |
| SyncMultiple.SongPass | sync_multiple.py:228-234 | nothing under `--clips-only`; otherwise one result per song, and for distinct songs each the outcome on the starting files; no extraction; the scans' answers unchanged |
| SyncMultiple.ClipPass | sync_multiple.py:237-261 | nothing and no call under `--songs-only`; otherwise the clip loop of `ProcessAllClips`, with the scans and the stop stated over the files before the song pass, and the files, the extractions (`ClipsDecodes`), the loads and the inferences the fold of the clips processed, on a stop too |
| SyncMultiple.BatchAllEmbedded | sync_multiple.py:228-261 | without refresh, when every song and clip embedding already exists, both passes leave the files as they were and load and infer nothing |
| SyncMultiple.RunPasses | sync_multiple.py:227-261 | the song block, then the clip block from the files the songs left. On success and on a stop alike the outcome is `BatchTrace`: each song's status on the starting files, then exactly the clips the scans list, in order, with their extractions (`ClipsDecodes` over the files the song pass left; the song pass extracts nothing). Files, loads and inferences are the fold of both passes. Without refresh over an all-embedded catalog nothing changes; with both switches nothing changes |
| SyncMultiple.RunOnSongs | sync_multiple.py:227-264 | the passes over the songs found, then the report: on success the report is the trace; on a clip-pass stop the run fails with that scan error, which some song's scan raises; the trace, files, extractions, loads and inferences as in `RunPasses` |
| SyncMultiple.RunBatch | sync_multiple.py:210-264 | stops without a listable base directory or without songs, and then changes nothing. Otherwise it finds exactly the songs, sorted, and `trace` records what was done, also when a song's scan stops the run: without `--clips-only` each song's outcome on the starting files; the clips processed, exactly the jobs of the scans made up to the stop, in order; the files, loads and inferences, the fold of both passes; one extraction per clip past the skip check whose WAV is missing or forced (`ClipsDecodes`, inside `BatchTrace`). A stop is at the first song whose scan stops (`ScansStopped`). A rerun without refresh over a fully embedded catalog changes nothing and calls nothing |
| SyncSimple.RunPathsApart | sync_simple.py:40-49 | the clip video, the clip WAV, the studio track and the studio cache are four different paths |
| SyncSimple.PrepareClipWav | sync_simple.py:55-68 | aborts exactly when the WAV is missing, extraction is not allowed and not forced; extracts exactly when forced or when it is missing and allowed; afterwards the WAV exists |
| SyncSimple.StudioEmbedding | sync_simple.py:77-91 | with caching, an existing cache and no refresh, loads the cache and runs no inference; otherwise runs one inference, and writes the cache only with caching |
| SyncSimple.Compare | sync_simple.py:71-107 | loads both tracks, gets both embeddings and reports their alignment. On every path the files are `ComparedFiles`: the cache written at line 90 stays when the clip inference or the alignment then fails. The loads and inferences are those made up to the failure. On success there is one inference with a cache hit, two otherwise |
| SyncSimple.SuccessfulComparisonCounts | sync_simple.py:72-99 | a successful comparison decodes both tracks and runs the model once on a cache hit, twice otherwise |
| SyncSimple.CacheOutlivesLaterFailure | sync_simple.py:84-99 | with caching and no usable cache, once both tracks decode and the studio inference succeeds, the cache holds that embedding whatever the clip inference and the alignment then do |
| SyncSimple.Run | sync_simple.py:52-107 | a missing studio track, a refused WAV step or a failed extraction stops the run with nothing changed. Otherwise the files are those the WAV step and then the comparison leave, whether or not the comparison succeeds, and the counters count the calls made. Decodes count the extraction attempt. The result is the script's outcome for the starting files |
| SyncSimple.SuccessfulRunFiles | sync_simple.py:52-73 | a successful run went through the WAV step, both tracks are files, and an extracted WAV holds the video's audio |
| SyncSimple.ComparisonFillsCache | sync_simple.py:77-91 | with caching, a successful comparison leaves in the cache the studio embedding it aligned against, whether loaded or computed |
| SyncSimple.ComparisonKeepsInputs | sync_simple.py:71-99 | the comparison writes at most the studio cache, so every other file is unchanged |
| SyncSimple.PreparationKeepsWav | sync_simple.py:55-68 | files that already hold the WAV (the video's audio when extraction is forced) pass the WAV step unchanged |
| SyncSimple.OutcomeOfPreparedFiles | sync_simple.py:52-68 | files holding the studio track and the WAV, unchanged by the WAV step, go straight to the comparison |
| SyncSimple.RunFillsCache | sync_simple.py:89-90 | a successful run with caching leaves the studio embedding it used in the cache |
| SyncSimple.SecondPreparationChangesNothing | sync_simple.py:55-68 | after a successful run a second run's WAV step changes nothing, since the WAV exists (a forced extraction writes the same audio again) |
| SyncSimple.ComparisonAgainSameEmbeddings | sync_simple.py:71-99 | with caching and no refresh, comparing again on the files a successful comparison left uses the cache and gets the same two embeddings |
| SyncSimple.SecondComparisonUsesCache | sync_simple.py:77-81 | after a successful run with caching and no refresh, the next run takes the studio embedding from the cache and gets the same embeddings |
| SyncSimple.SecondRunReusesCache | sync_simple.py:52-107 | idempotence: after a successful run with caching and no refresh, a second run uses the cache and reports the same result |
| SyncSimple.RunTwiceWithCache | sync_simple.py:77-107 | two runs with caching and no refresh report the same second, and the second run infers only the clip |

## Left out

- OpenL3 inference, librosa's decoding and `librosa.util.normalize`, and
  moviepy's audio extraction are foreign numeric code. They are deterministic
  functions fixed in the `Workspace`. For extraction, loading and inference
  `None` stands for an exception. `librosa.util.normalize` is total here:
  its failure on non-finite samples is not modelled.
- `np.savez_compressed` and `np.load` are map updates and lookups. The
  archive format itself is not modelled; an archive is either an embedding
  or something else.
  - In `sync_simple.py:77-79` a corrupt cache makes `np.load` raise, and
    nothing catches it. The model stops the run with `CacheUnreadable` when
    the cache path holds anything but an embedding archive.
  - The batch script only asks whether an archive exists
    (sync_multiple.py:146, sync_multiple.py:181). A corrupt archive
    therefore counts as already embedded, in the script and in the model.
- Alignment.SqDist: embedding components are integers rather than float32,
  and the distance is squared Euclidean without the square root. The square
  root is monotone, so every `argmin` is the same; floating-point rounding
  is not modelled.
- Store.Workspace.ExtractAudio: the `mkdir` calls for the WAV and embedding
  directories are not modelled. A stored path makes its parent directories
  exist (as `Folder` explicitly or through their children).
- `embed_dir.mkdir(exist_ok=True)` without `parents=True`, and the up-front
  `mkdir` of `embeddings/songs` and `embeddings/clips`: only their effect of
  making the parent exist is covered.
- Printing, argparse and the `sys.exit` messages. An exit is an error value
  (`RunError`, `ScanError`), and the argparse defaults are not modelled.
- The `ModuleNotFoundError` branch of `sync_simple.py:61-64`, when moviepy is
  not installed, is not modelled. In the batch script this case is one more
  failed extraction.
- Catalog.IsMp4Name: `.mp4` is matched case-sensitively, as `Path.glob("*.mp4")`
  does on POSIX systems. On Windows the pattern also matches `CLIP01.MP4`.
- Catalog.FindClipsInSource: the order of the subdirectories, and of the
  videos inside each, is left open, as `iterdir` and `glob` leave it.
- Text.Lower and Text.IsDigit: ASCII only. Python's `str.lower` also folds
  other letters, and `str.isdigit` also accepts other Unicode digits.
- `iterdir` and `glob` order is chosen arbitrarily at each step. The
  contracts state what holds for every order. The concrete order of the host
  file system is not modelled.
- The batch loop's exceptions from `iterdir` on a missing or non-directory
  path are a `ScanFailed` result that ends the run; the traceback printing is
  left out.
- SyncSimple.RunTwiceWithCache: it states the second run's result and
  inference count, not its decode count. A forced extraction decodes the
  video again.
- `utils/extraer_audio.py` and `files_to_wav.py` are thin wrappers around
  moviepy and are not part of this model.
- `test.py`'s fixed paths, its unconditional extraction and its loading are
  not modelled separately. Its comparison block is `Alignment.Align`.
