/** The thumbnail generator and its cache: a cached thumbnail lives at
    `cache_folder/<md5 hex of the picture's path>/<filename>` and is copied out on a hit,
    rendered on a miss. The filesystem is a map from file paths to contents plus a set of
    directories. */
module PictureResizer {
  import opened Outcomes
  import opened Paths
  import Assets
  import Pictures

  /** `THUMBNAIL_SIZE`: the box the thumbnail is fitted into. */
  const ThumbnailSize: (int, int) := (150, 150)

  type Bytes = seq<bv8>

  /** PIL's `thumbnail(box)` followed by `save(target)`: the thumbnail of an image file's
      content, encoded for the path it is saved at, left uninterpreted. */
  type Renderer = (Bytes, (int, int), string) -> Bytes

  predicate IsHexDigit(c: char)
  {
    '0' <= c <= '9' || 'a' <= c <= 'f'
  }

  /** `md5(s.encode()).hexdigest()`: 32 lower-case hexadecimal digits, otherwise uninterpreted. */
  predicate IsHexDigest(h: string)
  {
    |h| == 32 && forall i :: 0 <= i < |h| ==> IsHexDigit(h[i])
  }

  /** A filesystem: files with their contents, and directories. "" stands for the current
      (or root) directory, which always exists. */
  datatype FsState = FsState(files: map<string, Bytes>, dirs: set<string>)

  predicate DirExists(s: FsState, d: string)
  {
    d == "" || d in s.dirs
  }

  /** Every file sits in an existing directory. */
  predicate WellFormed(s: FsState)
  {
    forall f :: f in s.files ==> DirExists(s, Parent(f))
  }

  datatype Step = Step(result: Result<()>, state: FsState)

  /** `shutil.copyfile(src, dst)`: FileNotFoundError when the source is missing or the
      destination's directory does not exist. */
  function CopyFile(s: FsState, src: string, dst: string): (r: Step)
    ensures r.result.Ok? <==> src in s.files && DirExists(s, Parent(dst))
    ensures r.result.Ok? ==> r.state == FsState(s.files[dst := s.files[src]], s.dirs)
    ensures r.result.Err? ==> r.state == s && r.result.error.FileNotFound?
  {
    if src !in s.files then Step(Err(FileNotFound(src)), s)
    else if !DirExists(s, Parent(dst)) then Step(Err(FileNotFound(dst)), s)
    else Step(Ok(()), FsState(s.files[dst := s.files[src]], s.dirs))
  }

  /** `os.makedirs(d)` without `exist_ok`: FileExistsError when `d` already exists. Only the
      leaf directory is recorded. */
  function MakeDirs(s: FsState, d: string): (r: Step)
    ensures r.result.Ok? <==> d !in s.dirs && d !in s.files
    ensures r.result.Ok? ==> r.state == FsState(s.files, s.dirs + {d})
    ensures r.result.Err? ==> r.state == s && r.result == Err(FileExists(d))
  {
    if d in s.dirs || d in s.files then Step(Err(FileExists(d)), s)
    else Step(Ok(()), FsState(s.files, s.dirs + {d}))
  }

  /** What `Image.save(target)` without a format picks the encoder from: the extension of
      the target's file name. */
  function SaveFormat(target: string): string
  {
    Assets.Extension(Basename(target))
  }

  /** Saving at `a` and at `b` encodes every thumbnail alike. */
  ghost predicate SameEncoding(render: Renderer, a: string, b: string)
  {
    forall content: Bytes :: render(content, ThumbnailSize, a) == render(content, ThumbnailSize, b)
  }

  /** PIL's rule: the encoding depends on the target only through its extension. */
  ghost predicate FormatFromExtension(render: Renderer)
  {
    forall a: string, b: string :: SaveFormat(a) == SaveFormat(b) ==> SameEncoding(render, a, b)
  }

  /** `_generate_thumbnail(picture, target)`: opens the picture, fits it into
      `ThumbnailSize` and saves it at `target` in the target's format. The source picture
      is only read. */
  function RenderThumbnail(s: FsState, picturePath: string, target: string, render: Renderer): (r: Step)
    ensures r.result.Ok? <==> picturePath in s.files && DirExists(s, Parent(target))
    ensures r.result.Ok? ==>
              r.state == FsState(s.files[target := render(s.files[picturePath], ThumbnailSize, target)], s.dirs)
    ensures r.result.Err? ==> r.state == s && r.result.error.FileNotFound?
  {
    if picturePath !in s.files then Step(Err(FileNotFound(picturePath)), s)
    else if !DirExists(s, Parent(target)) then Step(Err(FileNotFound(target)), s)
    else Step(Ok(()), FsState(s.files[target := render(s.files[picturePath], ThumbnailSize, target)], s.dirs))
  }


  /** A primitive that only stores a file or a directory keeps every file inside an
      existing directory. */
  lemma PrimitivesKeepWellFormed(s: FsState, src: string, dst: string, d: string, render: Renderer)
    requires WellFormed(s)
    ensures WellFormed(CopyFile(s, src, dst).state)
    ensures WellFormed(MakeDirs(s, d).state)
    ensures WellFormed(RenderThumbnail(s, src, dst, render).state)
  {
  }

  /** `md5(...).hexdigest()`, left uninterpreted: the digest text of a string. */
  type Digest = string -> string

  /** What gets hashed: the picture's path joined with its file name. */
  function HashKey(picturePath: string): string
  {
    Join(picturePath, Assets.Filename(picturePath))
  }

  /** The hash directory of a picture's cache entry. */
  function CacheDir(cacheFolder: string, picturePath: string, md5hex: Digest): string
  {
    Join(cacheFolder, md5hex(HashKey(picturePath)))
  }

  /** Where a picture's thumbnail is cached. */
  function CachePath(cacheFolder: string, picturePath: string, md5hex: Digest): string
  {
    Join(CacheDir(cacheFolder, picturePath, md5hex), Assets.Filename(picturePath))
  }

  /** The digest of the picture's key is 32 hexadecimal digits, as an MD5 hex digest is. */
  predicate HexKeyed(picturePath: string, md5hex: Digest)
  {
    IsHexDigest(md5hex(HashKey(picturePath)))
  }

  /** A name placed in a hash directory under a folder: the name is the last component and
      the hash directory its parent. */
  lemma HashDirLayout(folder: string, hex: string, name: string)
    requires folder != "" && IsHexDigest(hex) && '/' !in name
    ensures Basename(Join(Join(folder, hex), name)) == name
    ensures Parent(Join(Join(folder, hex), name)) == Join(folder, hex)
    ensures Join(Join(folder, hex), name) != Join(folder, hex)
  {
    var dir := Join(folder, hex);
    BasenameJoin(dir, name);
    JoinEndsWith(folder, hex);
    assert IsHexDigit(dir[|dir| - 1]);
    ParentJoin(dir, name);
    assert |Join(dir, name)| == |dir| + 1 + |name|;
  }

  /** The cache file keeps the picture's own file name, and its directory is the hash
      directory under the cache folder. */
  lemma CachePathLayout(cacheFolder: string, picturePath: string, md5hex: Digest)
    requires cacheFolder != "" && HexKeyed(picturePath, md5hex)
    ensures Assets.Filename(CachePath(cacheFolder, picturePath, md5hex)) == Assets.Filename(picturePath)
    ensures Parent(CachePath(cacheFolder, picturePath, md5hex)) == CacheDir(cacheFolder, picturePath, md5hex)
    ensures CachePath(cacheFolder, picturePath, md5hex) != CacheDir(cacheFolder, picturePath, md5hex)
  {
    HashDirLayout(cacheFolder, md5hex(HashKey(picturePath)), Assets.Filename(picturePath));
  }

  /** A digest of fixed length is read back off the end of the joined path. */
  lemma JoinedDigestsAgree(folder: string, h1: string, h2: string)
    requires |h1| == 32 && |h2| == 32
    requires Join(folder, h1) == Join(folder, h2)
    ensures h1 == h2
  {
    JoinEndsWith(folder, h1);
    JoinEndsWith(folder, h2);
  }

  /** Two pictures whose keys hash differently never share a cache file, even when their
      file names are the same. */
  lemma CachePathsDistinct(cacheFolder: string, p1: string, p2: string, md5hex: Digest)
    requires cacheFolder != "" && HexKeyed(p1, md5hex) && HexKeyed(p2, md5hex)
    requires md5hex(HashKey(p1)) != md5hex(HashKey(p2))
    ensures CachePath(cacheFolder, p1, md5hex) != CachePath(cacheFolder, p2, md5hex)
  {
    if CachePath(cacheFolder, p1, md5hex) == CachePath(cacheFolder, p2, md5hex) {
      CachePathLayout(cacheFolder, p1, md5hex);
      CachePathLayout(cacheFolder, p2, md5hex);
      JoinedDigestsAgree(cacheFolder, md5hex(HashKey(p1)), md5hex(HashKey(p2)));
    }
  }

  /** `if cache_folder:` — None and the empty string both mean "no cache". */
  predicate UsesCache(cacheFolder: Option<string>)
  {
    cacheFolder.Some? && cacheFolder.value != ""
  }

  /** `generate_thumbnail(picture, output_path, cache_folder=...)` as a function of the
      filesystem before the call: its outcome and the filesystem after it. A failed copy
      out of the cache (FileNotFoundError, for a missing cache file or a missing output
      directory alike) is taken as a miss; on a miss the branch falls through to a second
      rendering straight into the output. */
  function GenerateThumbnailEffect(s: FsState, picturePath: string, outputPath: string,
                                   cacheFolder: Option<string>, md5hex: Digest, render: Renderer): Step
  {
    if !UsesCache(cacheFolder) then
      RenderThumbnail(s, picturePath, outputPath, render)
    else
      CachedThumbnailEffect(s, picturePath, outputPath, CachePath(cacheFolder.value, picturePath, md5hex), render)
  }

  /** The cache branch, for the cache file `cached`. */
  function CachedThumbnailEffect(s: FsState, picturePath: string, outputPath: string,
                                 cached: string, render: Renderer): Step
  {
    var hit := CopyFile(s, cached, outputPath);
    if hit.result.Ok? then hit
    else
      var made := MakeDirs(s, Parent(cached));
      if made.result.Err? then made
      else
        var rendered := RenderThumbnail(made.state, picturePath, cached, render);
        if rendered.result.Err? then rendered
        else
          var copied := CopyFile(rendered.state, cached, outputPath);
          if copied.result.Err? then copied
          else RenderThumbnail(copied.state, picturePath, outputPath, render)
  }

  /** The steps of a miss on a fresh directory, for any cache file. */
  lemma CachedMissSteps(s: FsState, picturePath: string, outputPath: string, cached: string, render: Renderer)
    requires cached !in s.files && Parent(cached) !in s.dirs && Parent(cached) !in s.files
    requires picturePath in s.files && DirExists(s, Parent(outputPath))
    ensures var r := CachedThumbnailEffect(s, picturePath, outputPath, cached, render);
            var thumbnail := render(s.files[picturePath], ThumbnailSize, cached);
            var source := if outputPath == picturePath then thumbnail else s.files[picturePath];
            && r.result == Ok(())
            && r.state.dirs == s.dirs + {Parent(cached)}
            && r.state.files == s.files[cached := thumbnail][outputPath := render(source, ThumbnailSize, outputPath)]
  {
    var thumbnail := render(s.files[picturePath], ThumbnailSize, cached);
    var made := FsState(s.files, s.dirs + {Parent(cached)});
    assert MakeDirs(s, Parent(cached)) == Step(Ok(()), made);
    var rendered := FsState(s.files[cached := thumbnail], made.dirs);
    assert RenderThumbnail(made, picturePath, cached, render) == Step(Ok(()), rendered);
    var copied := FsState(rendered.files[outputPath := thumbnail], made.dirs);
    assert CopyFile(rendered, cached, outputPath) == Step(Ok(()), copied);
    assert copied.files[picturePath] == if outputPath == picturePath then thumbnail else s.files[picturePath];
  }

  /** Without a cache folder the thumbnail is rendered straight into the output. */
  lemma UncachedRendersToOutput(s: FsState, picturePath: string, outputPath: string,
                                cacheFolder: Option<string>, md5hex: Digest, render: Renderer)
    requires !UsesCache(cacheFolder)
    ensures var r := GenerateThumbnailEffect(s, picturePath, outputPath, cacheFolder, md5hex, render);
            && (r.result.Ok? <==> picturePath in s.files && DirExists(s, Parent(outputPath)))
            && (r.result.Ok? ==>
                  r.state == FsState(s.files[outputPath := render(s.files[picturePath], ThumbnailSize, outputPath)], s.dirs))
            && (r.result.Err? ==> r.state == s)
  {
  }

  /** A cache hit: the cached thumbnail is copied to the output and nothing else changes;
      the picture itself is not even read. */
  lemma CacheHit(s: FsState, picturePath: string, outputPath: string,
                 cacheFolder: Option<string>, md5hex: Digest, render: Renderer)
    requires UsesCache(cacheFolder)
    requires CachePath(cacheFolder.value, picturePath, md5hex) in s.files
    requires DirExists(s, Parent(outputPath))
    ensures GenerateThumbnailEffect(s, picturePath, outputPath, cacheFolder, md5hex, render) ==
            Step(Ok(()), FsState(s.files[outputPath := s.files[CachePath(cacheFolder.value, picturePath, md5hex)]], s.dirs))
  {
  }

  /** The cache file has the picture's file name, so it is saved in the picture's format,
      and so is an output with the picture's extension. */
  lemma CacheFileFormat(cacheFolder: string, picturePath: string, outputPath: string, md5hex: Digest, render: Renderer)
    requires FormatFromExtension(render) && SaveFormat(outputPath) == SaveFormat(picturePath)
    ensures SaveFormat(CachePath(cacheFolder, picturePath, md5hex)) == SaveFormat(picturePath)
    ensures SameEncoding(render, outputPath, CachePath(cacheFolder, picturePath, md5hex))
  {
    BasenameJoin(CacheDir(cacheFolder, picturePath, md5hex), Assets.Filename(picturePath));
  }

  /** A cache miss on a fresh hash directory: the directory is made, the thumbnail is
      stored in the cache and copied to the output, and the output is then rendered again
      from the picture, encoded for the output (from the thumbnail itself when the picture
      is its own output). */
  lemma CacheMiss(s: FsState, picturePath: string, outputPath: string,
                  cacheFolder: Option<string>, md5hex: Digest, render: Renderer)
    requires UsesCache(cacheFolder) && HexKeyed(picturePath, md5hex)
    requires CachePath(cacheFolder.value, picturePath, md5hex) !in s.files
    requires CacheDir(cacheFolder.value, picturePath, md5hex) !in s.dirs
    requires CacheDir(cacheFolder.value, picturePath, md5hex) !in s.files
    requires picturePath in s.files && DirExists(s, Parent(outputPath))
    ensures var r := GenerateThumbnailEffect(s, picturePath, outputPath, cacheFolder, md5hex, render);
            var cached := CachePath(cacheFolder.value, picturePath, md5hex);
            var thumbnail := render(s.files[picturePath], ThumbnailSize, cached);
            var source := if outputPath == picturePath then thumbnail else s.files[picturePath];
            && r.result == Ok(())
            && r.state.dirs == s.dirs + {CacheDir(cacheFolder.value, picturePath, md5hex)}
            && r.state.files == s.files[cached := thumbnail][outputPath := render(source, ThumbnailSize, outputPath)]
  {
    CachePathLayout(cacheFolder.value, picturePath, md5hex);
    CachedMissSteps(s, picturePath, outputPath, CachePath(cacheFolder.value, picturePath, md5hex), render);
  }

  /** After a miss, the output holds the cached thumbnail exactly when the picture's
      thumbnail is encoded alike for both paths. */
  lemma MissOutputMatchesCache(s: FsState, picturePath: string, outputPath: string,
                               cacheFolder: Option<string>, md5hex: Digest, render: Renderer)
    requires UsesCache(cacheFolder) && HexKeyed(picturePath, md5hex)
    requires CachePath(cacheFolder.value, picturePath, md5hex) !in s.files
    requires CacheDir(cacheFolder.value, picturePath, md5hex) !in s.dirs
    requires CacheDir(cacheFolder.value, picturePath, md5hex) !in s.files
    requires picturePath in s.files && DirExists(s, Parent(outputPath)) && outputPath != picturePath
    ensures var r := GenerateThumbnailEffect(s, picturePath, outputPath, cacheFolder, md5hex, render);
            var cached := CachePath(cacheFolder.value, picturePath, md5hex);
            && outputPath in r.state.files && cached in r.state.files
            && (r.state.files[outputPath] == r.state.files[cached] <==>
                  render(s.files[picturePath], ThumbnailSize, outputPath) == render(s.files[picturePath], ThumbnailSize, cached))
  {
    CacheMiss(s, picturePath, outputPath, cacheFolder, md5hex, render);
    var cached := CachePath(cacheFolder.value, picturePath, md5hex);
    var thumbnail := render(s.files[picturePath], ThumbnailSize, cached);
    var files := s.files[cached := thumbnail][outputPath := render(s.files[picturePath], ThumbnailSize, outputPath)];
    assert files[outputPath] == render(s.files[picturePath], ThumbnailSize, outputPath);
    if cached != outputPath {
      assert files[cached] == thumbnail;
    }
  }

  /** So an output with the picture's extension (the caller passes the picture's own file
      name) holds the cached thumbnail after a miss. */
  lemma MissWithPictureExtensionMatchesCache(s: FsState, picturePath: string, outputPath: string,
                                             cacheFolder: Option<string>, md5hex: Digest, render: Renderer)
    requires UsesCache(cacheFolder) && HexKeyed(picturePath, md5hex)
    requires CachePath(cacheFolder.value, picturePath, md5hex) !in s.files
    requires CacheDir(cacheFolder.value, picturePath, md5hex) !in s.dirs
    requires CacheDir(cacheFolder.value, picturePath, md5hex) !in s.files
    requires picturePath in s.files && DirExists(s, Parent(outputPath)) && outputPath != picturePath
    requires FormatFromExtension(render) && SaveFormat(outputPath) == SaveFormat(picturePath)
    ensures var r := GenerateThumbnailEffect(s, picturePath, outputPath, cacheFolder, md5hex, render);
            var cached := CachePath(cacheFolder.value, picturePath, md5hex);
            outputPath in r.state.files && cached in r.state.files && r.state.files[outputPath] == r.state.files[cached]
  {
    CacheFileFormat(cacheFolder.value, picturePath, outputPath, md5hex, render);
    MissOutputMatchesCache(s, picturePath, outputPath, cacheFolder, md5hex, render);
  }

  /** Two writes to different paths each leave their own content. */
  lemma UpdateTwice(files: map<string, Bytes>, a: string, x: Bytes, b: string, y: Bytes)
    requires a != b
    ensures files[a := x][b := y][a] == x && files[a := x][b := y][b] == y
  {
  }

  /** An output encoded differently from the cache file is not stable: a miss leaves the
      output encoded for itself, and the next call, a hit, overwrites it with the cached
      thumbnail. */
  lemma OtherFormatOutputIsOverwritten(s: FsState, picturePath: string, outputPath: string,
                                       cacheFolder: Option<string>, md5hex: Digest, render: Renderer)
    requires UsesCache(cacheFolder) && HexKeyed(picturePath, md5hex)
    requires CachePath(cacheFolder.value, picturePath, md5hex) !in s.files
    requires CacheDir(cacheFolder.value, picturePath, md5hex) !in s.dirs
    requires CacheDir(cacheFolder.value, picturePath, md5hex) !in s.files
    requires picturePath in s.files && DirExists(s, Parent(outputPath)) && outputPath != picturePath
    requires render(s.files[picturePath], ThumbnailSize, outputPath)
          != render(s.files[picturePath], ThumbnailSize, CachePath(cacheFolder.value, picturePath, md5hex))
    ensures var first := GenerateThumbnailEffect(s, picturePath, outputPath, cacheFolder, md5hex, render);
            var second := GenerateThumbnailEffect(first.state, picturePath, outputPath, cacheFolder, md5hex, render);
            var cached := CachePath(cacheFolder.value, picturePath, md5hex);
            && first.result.Ok? && second.result.Ok?
            && outputPath in first.state.files && outputPath in second.state.files
            && first.state.files[outputPath] == render(s.files[picturePath], ThumbnailSize, outputPath)
            && second.state.files[outputPath] == render(s.files[picturePath], ThumbnailSize, cached)
            && second.state != first.state
  {
    var cached := CachePath(cacheFolder.value, picturePath, md5hex);
    var thumbnail := render(s.files[picturePath], ThumbnailSize, cached);
    var output := render(s.files[picturePath], ThumbnailSize, outputPath);
    CacheMiss(s, picturePath, outputPath, cacheFolder, md5hex, render);
    var first := GenerateThumbnailEffect(s, picturePath, outputPath, cacheFolder, md5hex, render);
    assert first.state.files == s.files[cached := thumbnail][outputPath := output];
    assert cached != outputPath;
    UpdateTwice(s.files, cached, thumbnail, outputPath, output);
    CachePathLayout(cacheFolder.value, picturePath, md5hex);
    assert DirExists(first.state, Parent(outputPath));
    CacheHit(first.state, picturePath, outputPath, cacheFolder, md5hex, render);
    var second := GenerateThumbnailEffect(first.state, picturePath, outputPath, cacheFolder, md5hex, render);
    assert second.state.files == first.state.files[outputPath := thumbnail];
    assert second.state.files[outputPath] != first.state.files[outputPath];
  }

  /** A hash directory without its cache file (left behind when an earlier rendering
      failed) makes every later call fail with FileExistsError, and nothing changes. */
  lemma StaleHashDirFails(s: FsState, picturePath: string, outputPath: string,
                          cacheFolder: Option<string>, md5hex: Digest, render: Renderer)
    requires UsesCache(cacheFolder) && HexKeyed(picturePath, md5hex)
    requires CachePath(cacheFolder.value, picturePath, md5hex) !in s.files
    requires CacheDir(cacheFolder.value, picturePath, md5hex) in s.dirs
    ensures GenerateThumbnailEffect(s, picturePath, outputPath, cacheFolder, md5hex, render) ==
            Step(Err(FileExists(CacheDir(cacheFolder.value, picturePath, md5hex))), s)
  {
    CachePathLayout(cacheFolder.value, picturePath, md5hex);
  }

  /** A miss whose rendering fails (the picture is missing) still leaves the new hash
      directory behind. */
  lemma FailedRenderLeavesHashDir(s: FsState, picturePath: string, outputPath: string,
                                  cacheFolder: Option<string>, md5hex: Digest, render: Renderer)
    requires UsesCache(cacheFolder) && HexKeyed(picturePath, md5hex)
    requires CachePath(cacheFolder.value, picturePath, md5hex) !in s.files
    requires CacheDir(cacheFolder.value, picturePath, md5hex) !in s.dirs
    requires CacheDir(cacheFolder.value, picturePath, md5hex) !in s.files
    requires picturePath !in s.files
    ensures GenerateThumbnailEffect(s, picturePath, outputPath, cacheFolder, md5hex, render) ==
            Step(Err(FileNotFound(picturePath)),
                 FsState(s.files, s.dirs + {CacheDir(cacheFolder.value, picturePath, md5hex)}))
  {
    CachePathLayout(cacheFolder.value, picturePath, md5hex);
  }

  /** The failed copy of an existing cache file, for any cache file. */
  lemma CachedHitWithoutOutputDir(s: FsState, picturePath: string, outputPath: string, cached: string, render: Renderer)
    requires WellFormed(s) && cached in s.files && Parent(cached) != ""
    requires !DirExists(s, Parent(outputPath))
    ensures CachedThumbnailEffect(s, picturePath, outputPath, cached, render) == Step(Err(FileExists(Parent(cached))), s)
  {
    assert DirExists(s, Parent(cached));
  }

  /** A cached file whose output directory is missing: the failed copy is taken for a
      miss, and making the (existing) hash directory then fails with FileExistsError. */
  lemma HitWithoutOutputDirFails(s: FsState, picturePath: string, outputPath: string,
                                 cacheFolder: Option<string>, md5hex: Digest, render: Renderer)
    requires UsesCache(cacheFolder) && HexKeyed(picturePath, md5hex) && WellFormed(s)
    requires CachePath(cacheFolder.value, picturePath, md5hex) in s.files
    requires !DirExists(s, Parent(outputPath))
    ensures GenerateThumbnailEffect(s, picturePath, outputPath, cacheFolder, md5hex, render) ==
            Step(Err(FileExists(CacheDir(cacheFolder.value, picturePath, md5hex))), s)
  {
    CachePathLayout(cacheFolder.value, picturePath, md5hex);
    JoinEndsWith(cacheFolder.value, md5hex(HashKey(picturePath)));
    CachedHitWithoutOutputDir(s, picturePath, outputPath, CachePath(cacheFolder.value, picturePath, md5hex), render);
  }

  /** The cache branch touches no file but the output and the cache file, and no
      directory but the cache file's own. */
  lemma CachedFrame(s: FsState, picturePath: string, outputPath: string, cached: string, render: Renderer)
    ensures var r := CachedThumbnailEffect(s, picturePath, outputPath, cached, render);
            && r.state.files.Keys <= s.files.Keys + {outputPath, cached}
            && (forall p :: p in s.files && p != outputPath && p != cached ==> p in r.state.files && r.state.files[p] == s.files[p])
            && r.state.dirs <= s.dirs + {Parent(cached)}
  {
  }

  /** Only the output file, the cache file and the hash directory can change; the
      picture and every other file are only read. */
  lemma GenerateThumbnailFrame(s: FsState, picturePath: string, outputPath: string,
                               cacheFolder: Option<string>, md5hex: Digest, render: Renderer)
    requires UsesCache(cacheFolder) ==> HexKeyed(picturePath, md5hex)
    ensures var r := GenerateThumbnailEffect(s, picturePath, outputPath, cacheFolder, md5hex, render);
            var touched := if UsesCache(cacheFolder) then {CachePath(cacheFolder.value, picturePath, md5hex)} else {};
            && r.state.files.Keys <= s.files.Keys + {outputPath} + touched
            && (forall p :: p in s.files && p != outputPath && p !in touched ==> p in r.state.files && r.state.files[p] == s.files[p])
            && r.state.dirs <= s.dirs + (if UsesCache(cacheFolder) then {CacheDir(cacheFolder.value, picturePath, md5hex)} else {})
  {
    if UsesCache(cacheFolder) {
      CachePathLayout(cacheFolder.value, picturePath, md5hex);
      CachedFrame(s, picturePath, outputPath, CachePath(cacheFolder.value, picturePath, md5hex), render);
    }
  }

  /** The cache branch keeps every file inside an existing directory. */
  lemma CachedKeepsWellFormed(s: FsState, picturePath: string, outputPath: string, cached: string, render: Renderer)
    requires WellFormed(s)
    ensures WellFormed(CachedThumbnailEffect(s, picturePath, outputPath, cached, render).state)
  {
    var hit := CopyFile(s, cached, outputPath);
    PrimitivesKeepWellFormed(s, cached, outputPath, Parent(cached), render);
    if hit.result.Err? {
      var made := MakeDirs(s, Parent(cached));
      if made.result.Ok? {
        PrimitivesKeepWellFormed(made.state, picturePath, cached, "", render);
        var rendered := RenderThumbnail(made.state, picturePath, cached, render);
        if rendered.result.Ok? {
          PrimitivesKeepWellFormed(rendered.state, cached, outputPath, "", render);
          var copied := CopyFile(rendered.state, cached, outputPath);
          if copied.result.Ok? {
            PrimitivesKeepWellFormed(copied.state, picturePath, outputPath, "", render);
          }
        }
      }
    }
  }

  /** Every file stays inside an existing directory, whatever the outcome. */
  lemma GenerateThumbnailKeepsWellFormed(s: FsState, picturePath: string, outputPath: string,
                                         cacheFolder: Option<string>, md5hex: Digest, render: Renderer)
    requires WellFormed(s)
    ensures WellFormed(GenerateThumbnailEffect(s, picturePath, outputPath, cacheFolder, md5hex, render).state)
  {
    if !UsesCache(cacheFolder) {
      PrimitivesKeepWellFormed(s, picturePath, outputPath, "", render);
    } else {
      CachedKeepsWellFormed(s, picturePath, outputPath, CachePath(cacheFolder.value, picturePath, md5hex), render);
    }
  }

  /** After a successful call the cache file and the output directory exist, and an output
      encoded like the cache file holds what the cache holds. */
  lemma CachedSuccessStores(s: FsState, picturePath: string, outputPath: string, cached: string, render: Renderer)
    requires CachedThumbnailEffect(s, picturePath, outputPath, cached, render).result.Ok?
    requires outputPath != picturePath && cached != picturePath
    requires SameEncoding(render, outputPath, cached)
    ensures var t := CachedThumbnailEffect(s, picturePath, outputPath, cached, render).state;
            && cached in t.files && DirExists(t, Parent(outputPath))
            && outputPath in t.files && t.files[outputPath] == t.files[cached]
  {
  }

  /** Calling again with the same arguments after a success changes nothing and succeeds,
      when neither the output nor the cache file is the picture itself and, with a cache,
      the output is encoded like the cache file. */
  lemma RepeatedCallIsStable(s: FsState, picturePath: string, outputPath: string,
                             cacheFolder: Option<string>, md5hex: Digest, render: Renderer)
    requires GenerateThumbnailEffect(s, picturePath, outputPath, cacheFolder, md5hex, render).result.Ok?
    requires outputPath != picturePath
    requires UsesCache(cacheFolder) ==> CachePath(cacheFolder.value, picturePath, md5hex) != picturePath
    requires UsesCache(cacheFolder) ==> SameEncoding(render, outputPath, CachePath(cacheFolder.value, picturePath, md5hex))
    ensures var first := GenerateThumbnailEffect(s, picturePath, outputPath, cacheFolder, md5hex, render);
            GenerateThumbnailEffect(first.state, picturePath, outputPath, cacheFolder, md5hex, render) == Step(Ok(()), first.state)
  {
    var first := GenerateThumbnailEffect(s, picturePath, outputPath, cacheFolder, md5hex, render);
    if UsesCache(cacheFolder) {
      var cached := CachePath(cacheFolder.value, picturePath, md5hex);
      CachedSuccessStores(s, picturePath, outputPath, cached, render);
      assert first.state.files[outputPath := first.state.files[cached]] == first.state.files;
    } else {
      assert first.state.files[outputPath := render(first.state.files[picturePath], ThumbnailSize, outputPath)]
          == first.state.files;
    }
  }

  /** In particular for an output with the picture's extension, as the caller passes the
      picture's own file name. */
  lemma RepeatedCallWithPictureExtensionIsStable(s: FsState, picturePath: string, outputPath: string,
                                                 cacheFolder: Option<string>, md5hex: Digest, render: Renderer)
    requires GenerateThumbnailEffect(s, picturePath, outputPath, cacheFolder, md5hex, render).result.Ok?
    requires outputPath != picturePath
    requires UsesCache(cacheFolder) ==> CachePath(cacheFolder.value, picturePath, md5hex) != picturePath
    requires UsesCache(cacheFolder) ==> FormatFromExtension(render) && SaveFormat(outputPath) == SaveFormat(picturePath)
    ensures var first := GenerateThumbnailEffect(s, picturePath, outputPath, cacheFolder, md5hex, render);
            GenerateThumbnailEffect(first.state, picturePath, outputPath, cacheFolder, md5hex, render) == Step(Ok(()), first.state)
  {
    if UsesCache(cacheFolder) {
      CacheFileFormat(cacheFolder.value, picturePath, outputPath, md5hex, render);
    }
    RepeatedCallIsStable(s, picturePath, outputPath, cacheFolder, md5hex, render);
  }

  /** The filesystem as an object the operations mutate. */
  class FileSystem {
    var files: map<string, Bytes>
    var dirs: set<string>

    function State(): FsState
      reads this
    {
      FsState(files, dirs)
    }

    constructor (files: map<string, Bytes>, dirs: set<string>)
      ensures State() == FsState(files, dirs)
    {
      this.files := files;
      this.dirs := dirs;
    }

    method Apply(step: Step) returns (r: Result<()>)
      modifies this
      ensures State() == step.state && r == step.result
    {
      files := step.state.files;
      dirs := step.state.dirs;
      r := step.result;
    }

    /** `shutil.copyfile`. */
    method CopyFileTo(src: string, dst: string) returns (r: Result<()>)
      modifies this
      ensures Step(r, State()) == CopyFile(old(State()), src, dst)
    {
      r := Apply(CopyFile(State(), src, dst));
    }

    /** `os.makedirs`. */
    method MakeDirsAt(d: string) returns (r: Result<()>)
      modifies this
      ensures Step(r, State()) == MakeDirs(old(State()), d)
    {
      r := Apply(MakeDirs(State(), d));
    }

    /** `PictureResizer._generate_thumbnail`. */
    method RenderThumbnailTo(picturePath: string, target: string, render: Renderer) returns (r: Result<()>)
      modifies this
      ensures Step(r, State()) == RenderThumbnail(old(State()), picturePath, target, render)
    {
      r := Apply(RenderThumbnail(State(), picturePath, target, render));
    }
  }

  /** The `try`/`except` of `PictureResizer.generate_thumbnail` and the rendering that
      follows it, for the cache file `cached`: on a hit the cached file is copied out; on a
      miss the hash directory is made, the thumbnail is rendered into the cache and copied
      out, and then (the branch does not return) rendered once more into the output. */
  method GenerateThroughCache(fs: FileSystem, picturePath: string, outputPath: string, cached: string, render: Renderer)
    returns (r: Result<()>)
    modifies fs
    ensures Step(r, fs.State()) == CachedThumbnailEffect(old(fs.State()), picturePath, outputPath, cached, render)
  {
    r := fs.CopyFileTo(cached, outputPath);
    if r.Ok? {
      return;
    }
    r := fs.MakeDirsAt(Parent(cached));
    if r.Err? {
      return;
    }
    r := fs.RenderThumbnailTo(picturePath, cached, render);
    if r.Err? {
      return;
    }
    r := fs.CopyFileTo(cached, outputPath);
    if r.Err? {
      return;
    }
    r := fs.RenderThumbnailTo(picturePath, outputPath, render);
  }

  /** `PictureResizer.generate_thumbnail`. An exception is the `Err` outcome, and the
      filesystem keeps what was done before it. */
  method GenerateThumbnail(fs: FileSystem, picture: Pictures.Picture, outputPath: string,
                           cacheFolder: Option<string>, md5hex: Digest, render: Renderer)
    returns (r: Result<()>)
    modifies fs
    ensures Step(r, fs.State()) ==
              GenerateThumbnailEffect(old(fs.State()), picture.path, outputPath, cacheFolder, md5hex, render)
  {
    if cacheFolder.Some? && cacheFolder.value != "" {
      var originalFullPath := Join(picture.path, picture.Filename());
      var hashedPath := md5hex(originalFullPath);
      var cachedFullPath := Join(Join(cacheFolder.value, hashedPath), picture.Filename());
      assert cachedFullPath == CachePath(cacheFolder.value, picture.path, md5hex);
      r := GenerateThroughCache(fs, picture.path, outputPath, cachedFullPath, render);
    } else {
      r := fs.RenderThumbnailTo(picture.path, outputPath, render);
    }
  }
}
