/**
 * The batch script's catalog scan: which songs have a studio track, which
 * clip sources a song has, and which clip videos a source holds.
 *
 * `iterdir` and `glob` yield directory entries in no particular order; the
 * scanners pick the next entry from the set of entries not yet visited, so
 * their contracts hold for every visiting order.
 */
module Catalog {
  import opened Outcomes
  import opened Text
  import opened Store
  import opened CacheKey

  /** Why a scan stops the script: the directory is missing or not a directory. */
  datatype ScanError = MissingBaseDir | NotADirectory(path: Path)

  /** A clip found by the scan: its video and its stem. */
  datatype ClipRef = ClipRef(video: Path, name: string)

  predicate Distinct<T(==)>(s: seq<T>) {
    forall i, j :: 0 <= i < j < |s| ==> s[i] != s[j]
  }

  /** `s` lists every element of `elems` exactly once. */
  ghost predicate Enumerates<T(!new)>(s: seq<T>, elems: set<T>) {
    Distinct(s) && forall x :: x in s <==> x in elems
  }

  lemma {:induction false} DistinctMultiplicity<T>(s: seq<T>, x: T)
    requires Distinct(s)
    ensures multiset(s)[x] == if x in s then 1 else 0
  {
    if s != [] {
      var init := s[..|s| - 1];
      assert s == init + [s[|s| - 1]];
      DistinctMultiplicity(init, x);
    }
  }

  /** A sorted listing of a set of names is unique: the scan's result does not depend on visiting order. */
  lemma SortedListingUnique(a: seq<string>, b: seq<string>, names: set<string>)
    requires Sorted(a) && Enumerates(a, names)
    requires Sorted(b) && Enumerates(b, names)
    ensures a == b
  {
    forall x ensures multiset(a)[x] == multiset(b)[x] {
      DistinctMultiplicity(a, x);
      DistinctMultiplicity(b, x);
    }
    assert multiset(a) == multiset(b);
    SortedUnique(a, b);
  }

  lemma {:induction false} SortedDistinct(a: seq<string>, s: seq<string>)
    requires Sorted(a) && Distinct(s) && multiset(a) == multiset(s)
    ensures Distinct(a)
  {
    forall i, j | 0 <= i < j < |a| ensures a[i] != a[j] {
      DistinctMultiplicity(s, a[i]);
      SingleOccurrence(a, i, j);
    }
  }

  /** An element occurring at most once in `a` is not repeated. */
  lemma SingleOccurrence(a: seq<string>, i: nat, j: nat)
    requires i < j < |a| && multiset(a)[a[i]] <= 1
    ensures a[i] != a[j]
  {
    assert a == a[..j] + a[j..];
    assert multiset(a) == multiset(a[..j]) + multiset(a[j..]);
    assert a[i] in multiset(a[..j]) && a[j] in multiset(a[j..]);
  }

  // ------------------------------------------------------------ songs

  /** A song directory: a directory under the base directory with a `cancion_estudio` entry. */
  predicate IsSongDir(fs: FileMap, n: string) {
    IsDir(fs, SongDir(n)) && Exists(fs, SongDir(n) + ["cancion_estudio"])
  }

  function SongIds(fs: FileMap): set<string> {
    set n | n in Children(fs, BaseDir) && IsSongDir(fs, n)
  }

  /** `find_all_songs`: the sorted ids of the song directories. */
  method FindAllSongs(fs: FileMap) returns (r: Result<seq<string>, ScanError>)
    ensures r == Err(MissingBaseDir) <==> !Exists(fs, BaseDir)
    ensures r == Err(NotADirectory(BaseDir)) <==> Exists(fs, BaseDir) && !IsDir(fs, BaseDir)
    ensures r.Ok? <==> IsDir(fs, BaseDir)
    ensures r.Ok? ==> Sorted(r.value) && Enumerates(r.value, SongIds(fs))
  {
    if !Exists(fs, BaseDir) {
      return Err(MissingBaseDir);
    }
    if !IsDir(fs, BaseDir) {
      return Err(NotADirectory(BaseDir));
    }
    var songs: seq<string> := [];
    var todo := Children(fs, BaseDir);
    while todo != {}
      invariant todo <= Children(fs, BaseDir)
      invariant Distinct(songs)
      invariant forall n :: n in songs <==> n in SongIds(fs) && n !in todo
      decreases |todo|
    {
      var n :| n in todo;
      if IsSongDir(fs, n) {
        songs := songs + [n];
      }
      todo := todo - {n};
    }
    var sorted := SortStrings(songs);
    SortedDistinct(sorted, songs);
    assert forall n :: n in sorted <==> n in songs by {
      forall n ensures n in sorted <==> n in songs {
        assert n in multiset(sorted) <==> n in multiset(songs);
      }
    }
    return Ok(sorted);
  }

  // ------------------------------------------------------------ sources

  /** `item.name.replace("clips_", "")`: every occurrence goes, not only the prefix. */
  function SourceName(dirName: string): string {
    RemoveAll(dirName, "clips_")
  }

  /** The subdirectories of a song whose names start with `clips_`. */
  function SourceDirs(fs: FileMap, song: string): set<string> {
    set n | n in Children(fs, SongDir(song)) && IsDir(fs, SongDir(song) + [n]) && StartsWith(n, "clips_")
  }

  function SourceNames(dirs: seq<string>): (names: seq<string>)
    ensures |names| == |dirs| && forall i :: 0 <= i < |dirs| ==> names[i] == SourceName(dirs[i])
  {
    if dirs == [] then [] else SourceNames(dirs[..|dirs| - 1]) + [SourceName(dirs[|dirs| - 1])]
  }

  /**
   * `find_clip_sources`: the source names of the song's `clips_*`
   * directories, sorted, one per directory (two directories can give the same
   * name). `dirs` is the order in which the directories were visited.
   */
  method FindClipSources(fs: FileMap, song: string) returns (r: Result<seq<string>, ScanError>, ghost dirs: seq<string>)
    ensures r.Err? <==> !IsDir(fs, SongDir(song))
    ensures r.Err? ==> r.error == NotADirectory(SongDir(song))
    ensures r.Ok? ==> Enumerates(dirs, SourceDirs(fs, song))
                      && Sorted(r.value) && multiset(r.value) == multiset(SourceNames(dirs))
  {
    dirs := [];
    if !IsDir(fs, SongDir(song)) {
      return Err(NotADirectory(SongDir(song))), dirs;
    }
    var sources: seq<string> := [];
    var todo := Children(fs, SongDir(song));
    while todo != {}
      invariant todo <= Children(fs, SongDir(song))
      invariant Distinct(dirs)
      invariant forall n :: n in dirs <==> n in SourceDirs(fs, song) && n !in todo
      invariant sources == SourceNames(dirs)
      decreases |todo|
    {
      var n :| n in todo;
      if IsDir(fs, SongDir(song) + [n]) && StartsWith(n, "clips_") {
        sources := sources + [SourceName(n)];
        dirs := dirs + [n];
      }
      todo := todo - {n};
    }
    return Ok(SortStrings(sources)), dirs;
  }

  /** A directory named `clips_<s>` with no further `clips_` in `s` gives back the directory it came from. */
  lemma SourceNameRebuildsDir(s: string)
    requires Free(s, "clips_")
    ensures "clips_" + SourceName("clips_" + s) == "clips_" + s
  {
    RemoveAllPrefixOnly(s, "clips_");
  }

  /**
   * With a second `clips_` in the name the source does not lead back: the
   * directory `clips_a_clips_b` gives source `a_b`, whose clips are then
   * looked for in `clips_a_b`.
   */
  lemma SourceNameDropsEveryOccurrence()
    ensures SourceName("clips_a_clips_b") == "a_b"
    ensures "clips_" + SourceName("clips_a_clips_b") != "clips_a_clips_b"
  {
    assert StartsWith("clips_a_clips_b", "clips_");
    assert "clips_a_clips_b"[6..] == "a_clips_b";
    assert "a_clips_b"[0] != "clips_"[0];
    assert "a_clips_b"[1..] == "_clips_b";
    assert "_clips_b"[0] != "clips_"[0];
    assert "_clips_b"[1..] == "clips_b";
    assert StartsWith("clips_b", "clips_");
    assert "clips_b"[6..] == "b";
    assert !StartsWith("b", "clips_");
    assert "b"[1..] == "";
    assert SourceName("clips_a_clips_b") == "a" + ("_" + "b");
  }

  // ------------------------------------------------------------ clips

  /** `clip_name.lower().startswith('clip') and len(clip_name) >= 6 and clip_name[4:][:2].isdigit()`. */
  predicate IsClipName(stem: string) {
    StartsWith(Lower(stem), "clip") && |stem| >= 6 && IsDigit(stem[4]) && IsDigit(stem[5])
  }

  /** A name the pattern `*.mp4` matches. */
  predicate IsMp4Name(n: string) {
    |n| >= 4 && n[|n| - 4..] == ".mp4"
  }

  /** `Path.stem` of a name ending in `.mp4`: the name without that suffix, except for `.mp4` itself. */
  function Stem(n: string): (s: string)
    requires IsMp4Name(n)
    ensures |n| > 4 ==> s + ".mp4" == n
  {
    if |n| > 4 then n[..|n| - 4] else n
  }

  predicate IsClipEntry(n: string) {
    IsMp4Name(n) && IsClipName(Stem(n))
  }

  /** The clips directly in `dir`. */
  function TopClips(fs: FileMap, dir: Path): set<ClipRef> {
    set n | n in Children(fs, dir) && IsClipEntry(n) :: ClipRef(dir + [n], Stem(n))
  }

  /** The clips in the subdirectory `sub` of `dir` (`names` restricts which entries count). */
  function ClipsIn(fs: FileMap, dir: Path, sub: string, names: set<string>): set<ClipRef> {
    set n | n in names && n in Children(fs, dir + [sub]) && IsClipEntry(n) :: ClipRef(dir + [sub, n], Stem(n))
  }

  /** The clips one level below `dir`, in the subdirectories named in `subs`. */
  function NestedClips(fs: FileMap, dir: Path, subs: set<string>): set<ClipRef> {
    set m, n | m in subs && m in Children(fs, dir) && IsDir(fs, dir + [m]) && n in Children(fs, dir + [m]) && IsClipEntry(n)
      :: ClipRef(dir + [m, n], Stem(n))
  }

  /** Every clip of `cs` lies below `dir`, and the clips of each subdirectory of `dir` are listed together. */
  ghost predicate GroupedBySubdir(cs: seq<ClipRef>, dir: Path) {
    && (forall c :: c in cs ==> |c.video| > |dir|)
    && forall i, j, k :: 0 <= i < j < k < |cs| && cs[i].video[|dir|] == cs[k].video[|dir|] ==> cs[j].video[|dir|] == cs[i].video[|dir|]
  }

  /** Appending the clips of a subdirectory not met before keeps the listing grouped. */
  lemma GroupedAppend(a: seq<ClipRef>, b: seq<ClipRef>, dir: Path, m: string)
    requires GroupedBySubdir(a, dir)
    requires forall c :: c in a ==> c.video[|dir|] != m
    requires forall c :: c in b ==> |c.video| > |dir| && c.video[|dir|] == m
    ensures GroupedBySubdir(a + b, dir)
  {
    var ab := a + b;
    forall i, j, k | 0 <= i < j < k < |ab| && ab[i].video[|dir|] == ab[k].video[|dir|]
      ensures ab[j].video[|dir|] == ab[i].video[|dir|]
    {
      if k < |a| {
        assert a[i] == ab[i] && a[j] == ab[j] && a[k] == ab[k];
      } else if |a| <= i {
        assert ab[i] in b && ab[j] in b;
      }
    }
  }

  /**
   * `find_clips_in_source`: the clips directly in `clips_<source>`, then the
   * clips one subdirectory down; no deeper file is looked at. A missing
   * directory has no clips. `top` is where the nested clips begin.
   */
  method FindClipsInSource(fs: FileMap, song: string, source: string)
    returns (r: Result<seq<ClipRef>, ScanError>, ghost top: nat)
    ensures r.Err? <==> Exists(fs, SourceDir(song, source)) && !IsDir(fs, SourceDir(song, source))
    ensures r.Err? ==> r.error == NotADirectory(SourceDir(song, source))
    ensures r.Ok? && !Exists(fs, SourceDir(song, source)) ==> r.value == []
    ensures r.Ok? ==> top <= |r.value|
                      && Enumerates(r.value[..top], TopClips(fs, SourceDir(song, source)))
                      && Enumerates(r.value[top..], NestedClips(fs, SourceDir(song, source), Children(fs, SourceDir(song, source))))
                      && GroupedBySubdir(r.value[top..], SourceDir(song, source))
  {
    var dir := SourceDir(song, source);
    top := 0;
    if !Exists(fs, dir) {
      return Ok([]), top;
    }
    if !IsDir(fs, dir) {
      return Err(NotADirectory(dir)), top;
    }
    var entries := Children(fs, dir);
    var clips := TopLevelClips(fs, dir);
    top := |clips|;
    var todo := entries;
    ghost var seen: set<string> := {};
    var nested: seq<ClipRef> := [];
    while todo != {}
      invariant todo <= entries && seen == entries - todo
      invariant Enumerates(nested, NestedClips(fs, dir, seen))
      invariant forall c :: c in nested ==> |c.video| == |dir| + 2 && c.video[..|dir|] == dir && c.video[|dir|] in seen
      invariant GroupedBySubdir(nested, dir)
      decreases |todo|
    {
      var m :| m in todo;
      if IsDir(fs, dir + [m]) {
        var inner := ClipsOfSubdir(fs, dir, m);
        NestedStep(fs, dir, seen, m, nested, inner);
        GroupedSubdirStep(nested, inner, dir, m);
        nested := nested + inner;
      } else {
        assert NestedClips(fs, dir, seen + {m}) == NestedClips(fs, dir, seen);
      }
      todo := todo - {m};
      seen := seen + {m};
    }
    assert (clips + nested)[..top] == clips && (clips + nested)[top..] == nested;
    return Ok(clips + nested), top;
  }

  lemma GroupedSubdirStep(nested: seq<ClipRef>, inner: seq<ClipRef>, dir: Path, m: string)
    requires GroupedBySubdir(nested, dir)
    requires forall c :: c in nested ==> |c.video| == |dir| + 2 && c.video[|dir|] != m
    requires forall c :: c in inner ==> |c.video| == |dir| + 2 && c.video[..|dir| + 1] == dir + [m]
    ensures GroupedBySubdir(nested + inner, dir)
  {
    forall c | c in inner
      ensures c.video[|dir|] == m
    {
      assert c.video[|dir|] == c.video[..|dir| + 1][|dir|];
    }
    GroupedAppend(nested, inner, dir, m);
  }

  /** The first loop of `find_clips_in_source`: `clips_dir.glob("*.mp4")` filtered by the clip pattern. */
  method TopLevelClips(fs: FileMap, dir: Path) returns (clips: seq<ClipRef>)
    ensures Enumerates(clips, TopClips(fs, dir))
  {
    clips := [];
    var todo := Children(fs, dir);
    while todo != {}
      invariant todo <= Children(fs, dir)
      invariant Distinct(clips)
      invariant forall c :: c in clips <==> c in TopClips(fs, dir) && c.video[|dir|] !in todo
      invariant forall c :: c in clips ==> |c.video| == |dir| + 1 && c.video[..|dir|] == dir
      decreases |todo|
    {
      var n :| n in todo;
      if IsClipEntry(n) {
        assert (dir + [n])[|dir|] == n && (dir + [n])[..|dir|] == dir;
        clips := clips + [ClipRef(dir + [n], Stem(n))];
      }
      todo := todo - {n};
    }
  }

  /** The inner loop of `find_clips_in_source`: `subdir.glob("*.mp4")` filtered by the clip pattern. */
  method ClipsOfSubdir(fs: FileMap, dir: Path, sub: string) returns (clips: seq<ClipRef>)
    ensures Enumerates(clips, ClipsIn(fs, dir, sub, Children(fs, dir + [sub])))
    ensures forall c :: c in clips ==> |c.video| == |dir| + 2 && c.video[..|dir| + 1] == dir + [sub]
  {
    clips := [];
    var todo := Children(fs, dir + [sub]);
    while todo != {}
      invariant todo <= Children(fs, dir + [sub])
      invariant Distinct(clips)
      invariant forall c :: c in clips <==> c in ClipsIn(fs, dir, sub, Children(fs, dir + [sub]) - todo)
      invariant forall c :: c in clips ==> |c.video| == |dir| + 2 && c.video[..|dir| + 1] == dir + [sub]
      invariant forall c :: c in clips ==> c.video[|dir| + 1] !in todo
      decreases |todo|
    {
      var n :| n in todo;
      ghost var done := Children(fs, dir + [sub]) - todo;
      if IsClipEntry(n) {
        var c := ClipRef(dir + [sub, n], Stem(n));
        assert c.video[|dir| + 1] == n && c.video[..|dir| + 1] == dir + [sub];
        clips := clips + [c];
      }
      todo := todo - {n};
      assert Children(fs, dir + [sub]) - todo == done + {n};
      ClipsInStep(fs, dir, sub, done, n);
    }
  }

  /** One more entry of the subdirectory adds its clip, if it is one. */
  lemma ClipsInStep(fs: FileMap, dir: Path, sub: string, names: set<string>, n: string)
    requires n in Children(fs, dir + [sub])
    ensures ClipsIn(fs, dir, sub, names + {n}) ==
            ClipsIn(fs, dir, sub, names) + (if IsClipEntry(n) then {ClipRef(dir + [sub, n], Stem(n))} else {})
  {
  }

  /** Adding one more subdirectory's clips keeps the nested listing an enumeration. */
  lemma NestedStep(fs: FileMap, dir: Path, seen: set<string>, m: string, nested: seq<ClipRef>, inner: seq<ClipRef>)
    requires m !in seen && m in Children(fs, dir) && IsDir(fs, dir + [m])
    requires Enumerates(nested, NestedClips(fs, dir, seen))
    requires forall c :: c in nested ==> |c.video| == |dir| + 2 && c.video[..|dir|] == dir && c.video[|dir|] in seen
    requires Enumerates(inner, ClipsIn(fs, dir, m, Children(fs, dir + [m])))
    requires forall c :: c in inner ==> |c.video| == |dir| + 2 && c.video[..|dir| + 1] == dir + [m]
    ensures Enumerates(nested + inner, NestedClips(fs, dir, seen + {m}))
    ensures forall c :: c in nested + inner ==> |c.video| == |dir| + 2 && c.video[..|dir|] == dir && c.video[|dir|] in seen + {m}
  {
    forall c | c in inner ensures c.video[..|dir|] == dir && c.video[|dir|] == m {
      assert c.video[..|dir|] == c.video[..|dir| + 1][..|dir|];
      assert c.video[|dir|] == c.video[..|dir| + 1][|dir|];
    }
    forall i, j | 0 <= i < |nested| && 0 <= j < |inner| ensures nested[i] != inner[j] {
      assert nested[i] in nested && inner[j] in inner;
    }
    var all := nested + inner;
    forall i, j | 0 <= i < j < |all| ensures all[i] != all[j] {
      if j < |nested| {
        assert all[i] == nested[i] && all[j] == nested[j];
      } else if i >= |nested| {
        assert all[i] == inner[i - |nested|] && all[j] == inner[j - |nested|];
      } else {
        assert all[i] == nested[i] && all[j] == inner[j - |nested|];
      }
    }
    assert NestedClips(fs, dir, seen + {m}) == NestedClips(fs, dir, seen) + ClipsIn(fs, dir, m, Children(fs, dir + [m]));
  }

  // ------------------------------------------------------- scans after writes

  /** Everything `find_clips_in_source` reads of one source directory. */
  datatype SourceView = SourceView(present: bool, isDir: bool, top: set<ClipRef>, nested: set<ClipRef>)

  function ViewOf(fs: FileMap, dir: Path): SourceView {
    SourceView(Exists(fs, dir), IsDir(fs, dir), TopClips(fs, dir), NestedClips(fs, dir, Children(fs, dir)))
  }

  /** Every `find_clip_sources` and `find_clips_in_source` call answers alike on `fs` and on `gs`. */
  ghost predicate SameCatalog(fs: FileMap, gs: FileMap) {
    && (forall song :: IsDir(fs, SongDir(song)) == IsDir(gs, SongDir(song)))
    && (forall song :: SourceDirs(fs, song) == SourceDirs(gs, song))
    && (forall song, source :: ViewOf(fs, SourceDir(song, source)) == ViewOf(gs, SourceDir(song, source)))
  }

  lemma SameCatalogTrans(fs: FileMap, gs: FileMap, hs: FileMap)
    requires SameCatalog(fs, gs) && SameCatalog(gs, hs)
    ensures SameCatalog(fs, hs)
  {
  }

  /** Storing a file outside `dir`'s subtree leaves every entry of `dir` as it was. */
  lemma EntriesKept(fs: FileMap, p: Path, a: Artifact, dir: Path)
    requires !Under(p, dir)
    ensures Children(fs[p := a], dir) == Children(fs, dir)
    ensures forall m :: Children(fs[p := a], dir + [m]) == Children(fs, dir + [m])
                        && IsDir(fs[p := a], dir + [m]) == IsDir(fs, dir + [m])
  {
    StoreElsewhere(fs, p, a, dir);
    forall m ensures Children(fs[p := a], dir + [m]) == Children(fs, dir + [m])
                  && IsDir(fs[p := a], dir + [m]) == IsDir(fs, dir + [m]) {
      StoreElsewhere(fs, p, a, dir + [m]);
    }
  }

  /** Storing a file outside `dir`'s subtree leaves the scan of `dir` as it was. */
  lemma ViewKept(fs: FileMap, p: Path, a: Artifact, dir: Path)
    requires !Under(p, dir)
    ensures ViewOf(fs[p := a], dir) == ViewOf(fs, dir)
  {
    StoreElsewhere(fs, p, a, dir);
    EntriesKept(fs, p, a, dir);
  }

  /** Storing a file outside a song's directory leaves the scan of its sources as it was. */
  lemma SongViewKept(fs: FileMap, p: Path, a: Artifact, song: string)
    requires !Under(p, SongDir(song))
    ensures IsDir(fs[p := a], SongDir(song)) == IsDir(fs, SongDir(song))
    ensures SourceDirs(fs[p := a], song) == SourceDirs(fs, song)
  {
    StoreElsewhere(fs, p, a, SongDir(song));
    EntriesKept(fs, p, a, SongDir(song));
  }

  /** Storing a file outside `clips_syntrack` (an embedding archive) changes no scan. */
  lemma OutsideKeepsCatalog(fs: FileMap, p: Path, a: Artifact)
    requires |p| > 0 && p[0] != BaseDir[0]
    ensures SameCatalog(fs, fs[p := a])
  {
    OutsideKeepsSongs(fs, p, a);
    OutsideKeepsViews(fs, p, a);
  }

  lemma OutsideKeepsSongs(fs: FileMap, p: Path, a: Artifact)
    requires |p| > 0 && p[0] != BaseDir[0]
    ensures forall song :: IsDir(fs, SongDir(song)) == IsDir(fs[p := a], SongDir(song))
    ensures forall song :: SourceDirs(fs, song) == SourceDirs(fs[p := a], song)
  {
    forall song ensures IsDir(fs, SongDir(song)) == IsDir(fs[p := a], SongDir(song))
                     && SourceDirs(fs, song) == SourceDirs(fs[p := a], song) {
      SongViewKept(fs, p, a, song);
    }
  }

  lemma OutsideKeepsViews(fs: FileMap, p: Path, a: Artifact)
    requires |p| > 0 && p[0] != BaseDir[0]
    ensures forall song, source :: ViewOf(fs, SourceDir(song, source)) == ViewOf(fs[p := a], SourceDir(song, source))
  {
    forall song, source ensures ViewOf(fs, SourceDir(song, source)) == ViewOf(fs[p := a], SourceDir(song, source)) {
      ViewKept(fs, p, a, SourceDir(song, source));
    }
  }

  /** Neither `wavs` nor a `.wav` file name is a clip video. */
  lemma WavNamesAreNoClips(n: string)
    ensures !IsClipEntry("wavs") && !IsClipEntry(n + ".wav")
  {
    assert "wavs"[0] != ".mp4"[0];
    var w := n + ".wav";
    assert w[|w| - 4..] == ".wav";
    assert ".wav"[1] != ".mp4"[1];
  }

  /**
   * Extracting a WAV into `clips_<source>/wavs/` of a source that is a
   * directory leaves the song's source listing as it was.
   */
  lemma WavKeepsSongView(fs: FileMap, song: string, source: string, n: string, a: Artifact)
    requires IsDir(fs, SourceDir(song, source))
    ensures SourceDirs(fs[SourceWav(song, source, n) := a], song) == SourceDirs(fs, song)
    ensures IsDir(fs[SourceWav(song, source, n) := a], SongDir(song)) == IsDir(fs, SongDir(song))
  {
    var w := SourceWav(song, source, n);
    var gs := fs[w := a];
    var s := SongDir(song);
    var d := "clips_" + source;
    assert SourceDir(song, source) == s + [d];
    ParentListsChild(fs, s, d);
    assert w[..|s|] == s && w[|s|] == d;
    assert Children(gs, s) == Children(fs, s);
    forall m ensures IsDir(gs, s + [m]) == IsDir(fs, s + [m]) {
      if m == d {
        StoreKeepsDir(fs, w, a, s + [m]);
      } else {
        assert w[..|s + [m]|][|s|] == d;
        StoreElsewhere(fs, w, a, s + [m]);
      }
    }
  }

  /** The same extraction leaves the scan of the source itself as it was: no `.wav` is a clip. */
  lemma WavKeepsOwnView(fs: FileMap, song: string, source: string, n: string, a: Artifact)
    requires IsDir(fs, SourceDir(song, source))
    ensures ViewOf(fs[SourceWav(song, source, n) := a], SourceDir(song, source)) == ViewOf(fs, SourceDir(song, source))
  {
    var dir := SourceDir(song, source);
    var w := SourceWav(song, source, n);
    var gs := fs[w := a];
    assert w == dir + ["wavs", n + ".wav"];
    WavKeepsTop(fs, dir, n, a);
    var sub := dir + ["wavs"];
    assert w[..|sub|] == sub && w[|sub|] == n + ".wav";
    assert Children(gs, sub) == Children(fs, sub) + {n + ".wav"};
    forall m | m != "wavs" ensures Children(gs, dir + [m]) == Children(fs, dir + [m])
                                && IsDir(gs, dir + [m]) == IsDir(fs, dir + [m]) {
      assert w[..|dir + [m]|][|dir|] == "wavs";
      StoreElsewhere(fs, w, a, dir + [m]);
    }
    WavKeepsNested(fs, gs, dir, n);
  }

  /** Storing `wavs/<n>.wav` below `dir` adds only `wavs` to its entries and no clip at its top level. */
  lemma WavKeepsTop(fs: FileMap, dir: Path, n: string, a: Artifact)
    requires IsDir(fs, dir)
    ensures Children(fs[dir + ["wavs", n + ".wav"] := a], dir) == Children(fs, dir) + {"wavs"}
    ensures TopClips(fs[dir + ["wavs", n + ".wav"] := a], dir) == TopClips(fs, dir)
  {
    var w := dir + ["wavs", n + ".wav"];
    var gs := fs[w := a];
    WavNamesAreNoClips(n);
    StoreKeepsDir(fs, w, a, dir);
    assert w[..|dir|] == dir && w[|dir|] == "wavs";
    assert Children(gs, dir) == Children(fs, dir) + {"wavs"};
  }

  /** The nested listing of `dir` when only `wavs/<n>.wav` was added below it. */
  lemma WavKeepsNested(fs: FileMap, gs: FileMap, dir: Path, n: string)
    requires Children(gs, dir) == Children(fs, dir) + {"wavs"}
    requires Children(gs, dir + ["wavs"]) == Children(fs, dir + ["wavs"]) + {n + ".wav"}
    requires forall m | m != "wavs" :: Children(gs, dir + [m]) == Children(fs, dir + [m])
                                       && IsDir(gs, dir + [m]) == IsDir(fs, dir + [m])
    ensures NestedClips(gs, dir, Children(gs, dir)) == NestedClips(fs, dir, Children(fs, dir))
  {
    WavNamesAreNoClips(n);
    forall c | c in NestedClips(gs, dir, Children(gs, dir)) ensures c in NestedClips(fs, dir, Children(fs, dir)) {
      var m, k :| m in Children(gs, dir) && IsDir(gs, dir + [m]) && k in Children(gs, dir + [m]) && IsClipEntry(k)
                  && c == ClipRef(dir + [m, k], Stem(k));
      if m == "wavs" {
        assert k in Children(fs, dir + [m]);
        assert IsDir(fs, dir + [m]);
        ParentListsChild(fs, dir, m);
      }
    }
    forall c | c in NestedClips(fs, dir, Children(fs, dir)) ensures c in NestedClips(gs, dir, Children(gs, dir)) {
      var m, k :| m in Children(fs, dir) && IsDir(fs, dir + [m]) && k in Children(fs, dir + [m]) && IsClipEntry(k)
                  && c == ClipRef(dir + [m, k], Stem(k));
      if m == "wavs" {
        assert k in Children(gs, dir + [m]);
      }
    }
  }

  /** Extracting a WAV into a source that is a directory changes no scan. */
  lemma WavKeepsCatalog(fs: FileMap, song: string, source: string, n: string, a: Artifact)
    requires IsDir(fs, SourceDir(song, source))
    ensures SameCatalog(fs, fs[SourceWav(song, source, n) := a])
  {
    var w := SourceWav(song, source, n);
    forall s ensures IsDir(fs, SongDir(s)) == IsDir(fs[w := a], SongDir(s))
                  && SourceDirs(fs, s) == SourceDirs(fs[w := a], s) {
      if s == song {
        WavKeepsSongView(fs, song, source, n, a);
      } else {
        assert w[..|SongDir(s)|][1] == song;
        SongViewKept(fs, w, a, s);
      }
    }
    forall s, x ensures ViewOf(fs, SourceDir(s, x)) == ViewOf(fs[w := a], SourceDir(s, x)) {
      if SourceDir(s, x) == SourceDir(song, source) {
        WavKeepsOwnView(fs, song, source, n, a);
      } else {
        assert w[..|SourceDir(s, x)|] == SourceDir(song, source);
        ViewKept(fs, w, a, SourceDir(s, x));
      }
    }
  }

  // ------------------------------------------------------------ properties

  /** Nothing deeper than one subdirectory is ever listed. */
  lemma ClipDepth(fs: FileMap, dir: Path, subs: set<string>)
    ensures forall c :: c in TopClips(fs, dir) ==> |c.video| == |dir| + 1 && IsClipName(c.name)
    ensures forall c :: c in NestedClips(fs, dir, subs) ==> |c.video| == |dir| + 2 && IsClipName(c.name)
  {
  }

  /** A stem is accepted exactly when its first four letters spell `clip` in any case and two digits follow. */
  lemma IsClipNameMeaning(stem: string)
    ensures IsClipName(stem) <==>
              |stem| >= 6 && LowerChar(stem[0]) == 'c' && LowerChar(stem[1]) == 'l' && LowerChar(stem[2]) == 'i'
              && LowerChar(stem[3]) == 'p' && '0' <= stem[4] <= '9' && '0' <= stem[5] <= '9'
  {
    if |stem| >= 6 {
      assert Lower(stem)[..4] == [LowerChar(stem[0]), LowerChar(stem[1]), LowerChar(stem[2]), LowerChar(stem[3])];
    }
  }

  lemma ClipNamesAccepted()
    ensures IsClipName("clip01") && IsClipName("clip99x") && IsClipName("CLIP07_live")
  {
    IsClipNameMeaning("clip01");
    IsClipNameMeaning("clip99x");
    IsClipNameMeaning("CLIP07_live");
  }

  lemma ClipNamesRejected()
    ensures !IsClipName("clip1") && !IsClipName("introclip02") && !IsClipName("clipA1")
  {
    IsClipNameMeaning("introclip02");
    IsClipNameMeaning("clipA1");
  }

  /** The single-clip script's naming `<song>_clipNN` does not pass the batch filter. */
  lemma SingleClipNamingRejected()
    ensures !IsClipName(NumberedClip("clocks_coldplay", 4))
  {
    var s := NumberedClip("clocks_coldplay", 4);
    IsClipNameMeaning(s);
    assert |s| >= 6 && s[2] == "clocks_coldplay"[2] == 'o';
  }

  /**
   * Two clips of one song can share an embedding archive: the source and the
   * clip stem are joined by `_` with no escaping, and both may contain `_`.
   * Source `x_clip01` with clip `clip02` and source `x` with clip
   * `clip01_clip02` both land in `x_clip01_clip02.npz`.
   */
  lemma ClipEmbeddingNamesCollide(song: string, x: string, a: string, b: string)
    requires IsClipName(a) && IsClipName(b)
    ensures IsClipName(a + "_" + b)
    ensures SourceDir(song, x + "_" + a) != SourceDir(song, x)
    ensures ClipEmbeddingPath(song, x + "_" + a, b) == ClipEmbeddingPath(song, x, a + "_" + b)
  {
    var ab := a + "_" + b;
    IsClipNameMeaning(a);
    IsClipNameMeaning(ab);
    assert ab[..6] == a[..6];
    assert |"clips_" + (x + "_" + a)| != |"clips_" + x|;
    assert SourceDir(song, x + "_" + a)[|SongDir(song)|] != SourceDir(song, x)[|SongDir(song)|];
    assert (x + "_" + a) + "_" + b + ".npz" == x + "_" + ab + ".npz";
  }

}
