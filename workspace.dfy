/**
 * The state both scripts work on: the files under the working directory,
 * and the foreign collaborators they call (moviepy's audio extraction,
 * librosa's loading and normalisation, OpenL3's inference) as deterministic
 * functions fixed when the workspace is made. Ghost counters record how
 * often each collaborator is called.
 */
module Store {
  import opened Outcomes
  import opened Alignment

  /** A path as its list of components: `["clips_syntrack", "clocks_coldplay", "cancion_estudio"]`. */
  type Path = seq<string>

  /** Decoded audio samples; only the collaborators look at their values. */
  type Pcm = seq<int>

  /**
   * What a path holds. `Folder` marks a directory that exists even when no
   * file lies below it; every proper prefix of a stored path is a directory too.
   */
  datatype Artifact =
    | Folder
    | Media(content: seq<int>)
    | Wav(samples: Pcm)
    | Npz(embedding: Embedding)

  type FileMap = map<Path, Artifact>

  /** The names directly below `d` (what `d.iterdir()` yields, as a set). */
  function Children(fs: FileMap, d: Path): set<string> {
    set p | p in fs && |p| > |d| && p[..|d|] == d :: p[|d|]
  }

  /** `Path.is_dir()`. */
  predicate IsDir(fs: FileMap, d: Path) {
    (d in fs && fs[d] == Folder) || Children(fs, d) != {}
  }

  /** `Path.exists()`: a file or a directory. */
  predicate Exists(fs: FileMap, p: Path) {
    p in fs || IsDir(fs, p)
  }

  /** A path holding file content that the decoders can be pointed at. */
  predicate IsFile(fs: FileMap, p: Path) {
    p in fs && fs[p] != Folder
  }

  /** Storing a file at `p` leaves `p` existing and every old path still there. */
  lemma StoreKeepsPaths(fs: FileMap, p: Path, a: Artifact, q: Path)
    requires Exists(fs, q) || q == p
    ensures Exists(fs[p := a], q)
  {
    if q != p && q !in fs {
      var n :| n in Children(fs, q);
      var k :| k in fs && |k| > |q| && k[..|q|] == q && k[|q|] == n;
      if k == p {
        assert p in fs[p := a];
      } else {
        assert k in fs[p := a];
      }
      assert n in Children(fs[p := a], q);
    }
  }

  /** `p` is `d` itself or lies somewhere below it. */
  predicate Under(p: Path, d: Path) {
    |d| <= |p| && p[..|d|] == d
  }

  /** `fs` and `gs` hold the same thing at `p`, or both nothing. */
  predicate AgreeAt(fs: FileMap, gs: FileMap, p: Path) {
    (p in fs <==> p in gs) && (p in fs ==> fs[p] == gs[p])
  }

  /** Storing a file outside `q`'s subtree changes nothing seen from `q`. */
  lemma StoreElsewhere(fs: FileMap, p: Path, a: Artifact, q: Path)
    requires !Under(p, q)
    ensures Children(fs[p := a], q) == Children(fs, q)
    ensures AgreeAt(fs[p := a], fs, q)
    ensures IsDir(fs[p := a], q) == IsDir(fs, q) && Exists(fs[p := a], q) == Exists(fs, q)
  {
    forall n | n in Children(fs[p := a], q) ensures n in Children(fs, q) {
      var k :| k in fs[p := a] && |k| > |q| && k[..|q|] == q && k[|q|] == n;
      assert k != p;
    }
    forall n | n in Children(fs, q) ensures n in Children(fs[p := a], q) {
      var k :| k in fs && |k| > |q| && k[..|q|] == q && k[|q|] == n;
      assert k in fs[p := a];
    }
  }

  /** A stored path below `d + [m]` makes `m` one of the names listed in `d`. */
  lemma ParentListsChild(fs: FileMap, d: Path, m: string)
    requires IsDir(fs, d + [m])
    ensures m in Children(fs, d)
  {
    var k: Path;
    if d + [m] in fs {
      k := d + [m];
    } else {
      var n :| n in Children(fs, d + [m]);
      k :| k in fs && |k| > |d + [m]| && k[..|d + [m]|] == d + [m] && k[|d + [m]|] == n;
      assert k[..|d|] == k[..|d + [m]|][..|d|];
    }
    assert k[|d|] == (d + [m])[|d|] == m;
  }

  /** Storing a file at some other path keeps a directory a directory. */
  lemma StoreKeepsDir(fs: FileMap, p: Path, a: Artifact, d: Path)
    requires IsDir(fs, d) && p != d
    ensures IsDir(fs[p := a], d)
  {
    if d !in fs || fs[d] != Folder {
      var n :| n in Children(fs, d);
      var k :| k in fs && |k| > |d| && k[..|d|] == d && k[|d|] == n;
      if k == p {
        assert p in fs[p := a];
      } else {
        assert k in fs[p := a];
      }
      assert n in Children(fs[p := a], d);
    }
  }

  /** The audio track moviepy writes for `video`, when it can read it. */
  function AudioTrack(fs: FileMap, decode: Artifact -> Option<Pcm>, video: Path): (r: Option<Pcm>)
    ensures r.Some? ==> IsFile(fs, video)
  {
    if IsFile(fs, video) then decode(fs[video]) else None
  }

  /** What librosa decodes from `p`, when it can read it. */
  function Decoded(fs: FileMap, load: Artifact -> Option<Pcm>, p: Path): (r: Option<Pcm>)
    ensures r.Some? ==> IsFile(fs, p)
  {
    if IsFile(fs, p) then load(fs[p]) else None
  }

  /** What `np.load(p)` gives back: the embedding stored there, if any. */
  function StoredEmbedding(fs: FileMap, p: Path): (r: Option<Embedding>)
    ensures r.Some? <==> p in fs && fs[p].Npz?
  {
    if p in fs && fs[p].Npz? then Some(fs[p].embedding) else None
  }

  class Workspace {
    /** Every file and explicit directory under the working directory. */
    var files: FileMap
    /** Audio extractions attempted (`VideoFileClip(..).audio.write_audiofile`). */
    ghost var decodes: nat
    /** Audio files decoded (`librosa.load`). */
    ghost var loads: nat
    /** Embedding inferences run (`openl3.get_audio_embedding`). */
    ghost var embeds: nat

    /** The audio track of a video; `None` when moviepy raises. */
    const decode: Artifact -> Option<Pcm>
    /** Decoding and resampling to 48 kHz mono; `None` when librosa raises. */
    const load: Artifact -> Option<Pcm>
    /** `librosa.util.normalize`. */
    const normalize: Pcm -> Pcm
    /** OpenL3 with mel256 input, music content, 512 dimensions and a 0.1 s hop; `None` when it raises. */
    const embed: Pcm -> Option<Embedding>

    constructor (files0: FileMap, decode: Artifact -> Option<Pcm>, load: Artifact -> Option<Pcm>,
                 normalize: Pcm -> Pcm, embed: Pcm -> Option<Embedding>)
      ensures files == files0 && decodes == 0 && loads == 0 && embeds == 0
      ensures this.decode == decode && this.load == load
      ensures this.normalize == normalize && this.embed == embed
    {
      files := files0;
      decodes, loads, embeds := 0, 0, 0;
      this.decode, this.load := decode, load;
      this.normalize, this.embed := normalize, embed;
    }

    /** Write the audio track of `video` to `wav`; false when moviepy raises. */
    method ExtractAudio(video: Path, wav: Path) returns (ok: bool)
      modifies this
      ensures ok <==> AudioTrack(old(files), decode, video).Some?
      ensures ok ==> files == old(files)[wav := Wav(AudioTrack(old(files), decode, video).value)]
      ensures !ok ==> files == old(files)
      ensures decodes == old(decodes) + 1 && loads == old(loads) && embeds == old(embeds)
    {
      var audio := AudioTrack(files, decode, video);
      decodes := decodes + 1;
      ok := audio.Some?;
      if ok {
        files := files[wav := Wav(audio.value)];
      }
    }

    /** `librosa.load(p, sr=48000)`. */
    method LoadAudio(p: Path) returns (r: Option<Pcm>)
      modifies this
      ensures r == Decoded(files, load, p)
      ensures files == old(files)
      ensures loads == old(loads) + 1 && decodes == old(decodes) && embeds == old(embeds)
    {
      r := Decoded(files, load, p);
      loads := loads + 1;
    }

    /** `openl3.get_audio_embedding(..)`. */
    method Embed(audio: Pcm) returns (r: Option<Embedding>)
      modifies this
      ensures r == embed(audio)
      ensures files == old(files)
      ensures embeds == old(embeds) + 1 && decodes == old(decodes) && loads == old(loads)
    {
      r := embed(audio);
      embeds := embeds + 1;
    }

    /** `np.load(p)`; `None` when there is no embedding archive at `p`. */
    method LoadEmbedding(p: Path) returns (r: Option<Embedding>)
      ensures r == StoredEmbedding(files, p)
    {
      r := StoredEmbedding(files, p);
    }

    /** `np.savez_compressed(p, emb=.., ts=..)`. */
    method SaveEmbedding(p: Path, e: Embedding)
      modifies this
      ensures files == old(files)[p := Npz(e)]
      ensures decodes == old(decodes) && loads == old(loads) && embeds == old(embeds)
    {
      files := files[p := Npz(e)];
    }
  }
}
