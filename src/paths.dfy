/** The layout of the celebrity data directory
    (backend/app/infra/celeb_store/paths.py). A path is its text with `/`
    separators; whether a path exists is a parameter. */
module Paths {
  import opened Wrappers
  import Config

  /** `Path(a) / b`. */
  function Join(a: string, b: string): string {
    a + "/" + b
  }

  /** `CelebPaths`: its base directory, the given one or the configured
      `data_dir` when none (or "") is given. */
  datatype CelebPaths = CelebPaths(baseDir: string)

  function NewCelebPaths(baseDir: Option<string>, settings: Config.Settings): (p: CelebPaths)
    ensures baseDir.Some? && baseDir.value != "" ==> p.baseDir == baseDir.value
    ensures baseDir.None? || baseDir.value == "" ==> p.baseDir == settings.dataDir
  {
    CelebPaths(if baseDir.Some? && baseDir.value != "" then baseDir.value else settings.dataDir)
  }

  function MetaDir(p: CelebPaths): string { Join(Join(p.baseDir, "celebs"), "meta") }
  function CelebsCsv(p: CelebPaths): string { Join(MetaDir(p), "celebs.csv") }
  function ImagesCsv(p: CelebPaths): string { Join(MetaDir(p), "images.csv") }
  function EmbeddingsDir(p: CelebPaths): string { Join(Join(p.baseDir, "celebs"), "embeddings") }
  function EmbeddingsNpy(p: CelebPaths): string { Join(EmbeddingsDir(p), "embed.npy") }
  function IdsNpy(p: CelebPaths): string { Join(EmbeddingsDir(p), "ids.npy") }
  function ExpressionIndexJson(p: CelebPaths): string { Join(EmbeddingsDir(p), "expr_index.json") }
  function ImagesDir(p: CelebPaths): string { Join(Join(p.baseDir, "celebs"), "images") }
  function ExpressionImagesDir(p: CelebPaths, expression: string): string { Join(ImagesDir(p), expression) }
  function CacheDir(p: CelebPaths): string { Join(p.baseDir, "cache") }

  /** `celeb_image_path`; the default extension is "jpg". */
  function CelebImagePath(p: CelebPaths, expression: string, celebId: string, ext: string := "jpg"): string {
    Join(ExpressionImagesDir(p, expression), celebId + "." + ext)
  }

  /** Every directory is the base directory followed by its fixed relative part. */
  lemma Layout(p: CelebPaths)
    ensures MetaDir(p) == p.baseDir + "/celebs/meta"
    ensures EmbeddingsDir(p) == p.baseDir + "/celebs/embeddings"
    ensures ImagesDir(p) == p.baseDir + "/celebs/images"
    ensures CacheDir(p) == p.baseDir + "/cache"
  {
  }

  /** Every file is the base directory followed by its fixed relative part. */
  lemma FileLayout(p: CelebPaths, expression: string, celebId: string)
    ensures CelebsCsv(p) == p.baseDir + "/celebs/meta/celebs.csv"
    ensures ImagesCsv(p) == p.baseDir + "/celebs/meta/images.csv"
    ensures EmbeddingsNpy(p) == p.baseDir + "/celebs/embeddings/embed.npy"
    ensures IdsNpy(p) == p.baseDir + "/celebs/embeddings/ids.npy"
    ensures ExpressionIndexJson(p) == p.baseDir + "/celebs/embeddings/expr_index.json"
    ensures CelebImagePath(p, expression, celebId) == p.baseDir + "/celebs/images/" + expression + "/" + celebId + ".jpg"
  {
    Layout(p);
  }

  /** The six named checks of `validate`, in their order. */
  datatype Checks = Checks(metaDir: bool, celebsCsv: bool, embeddingsDir: bool,
                           embeddingsNpy: bool, idsNpy: bool, imagesDir: bool)

  /** `validate`: whether each required path exists. */
  function Validate(p: CelebPaths, exists_: string -> bool): (c: Checks)
    ensures c.celebsCsv == exists_(CelebsCsv(p)) && c.idsNpy == exists_(IdsNpy(p))
  {
    Checks(exists_(MetaDir(p)), exists_(CelebsCsv(p)), exists_(EmbeddingsDir(p)),
           exists_(EmbeddingsNpy(p)), exists_(IdsNpy(p)), exists_(ImagesDir(p)))
  }

  /** `is_valid`: every check holds. */
  predicate IsValid(p: CelebPaths, exists_: string -> bool) {
    var c := Validate(p, exists_);
    c.metaDir && c.celebsCsv && c.embeddingsDir && c.embeddingsNpy && c.idsNpy && c.imagesDir
  }

  /** `is_valid` holds iff the six required paths exist; images.csv,
      expr_index.json and the cache are not required. */
  lemma IsValidExactly(p: CelebPaths, exists_: string -> bool, other: string -> bool)
    ensures IsValid(p, exists_) <==>
      exists_(MetaDir(p)) && exists_(CelebsCsv(p)) && exists_(EmbeddingsDir(p))
      && exists_(EmbeddingsNpy(p)) && exists_(IdsNpy(p)) && exists_(ImagesDir(p))
    ensures (forall s :: s != ImagesCsv(p) && s != ExpressionIndexJson(p) ==> exists_(s) == other(s)) ==>
      IsValid(p, exists_) == IsValid(p, other)
  {
    RequiredDistinct(p);
  }

  /** The required paths differ from images.csv and expr_index.json. */
  lemma RequiredDistinct(p: CelebPaths)
    ensures ImagesCsv(p) !in {MetaDir(p), CelebsCsv(p), EmbeddingsDir(p), EmbeddingsNpy(p), IdsNpy(p), ImagesDir(p)}
    ensures ExpressionIndexJson(p) !in {MetaDir(p), CelebsCsv(p), EmbeddingsDir(p), EmbeddingsNpy(p), IdsNpy(p), ImagesDir(p)}
  {
    Layout(p);
    FileLayout(p, "", "");
    var b := p.baseDir;
    var ic := ImagesCsv(p);
    var ej := ExpressionIndexJson(p);
    assert |ic| == |b| + 23 && |ej| == |b| + 34;
    assert |MetaDir(p)| == |b| + 12 && |CelebsCsv(p)| == |b| + 23 && |EmbeddingsDir(p)| == |b| + 18;
    assert |EmbeddingsNpy(p)| == |b| + 28 && |IdsNpy(p)| == |b| + 26 && |ImagesDir(p)| == |b| + 14;
    assert ic[|b| + 13..] != CelebsCsv(p)[|b| + 13..] by {
      assert ic[|b| + 13..] == "images.csv" && CelebsCsv(p)[|b| + 13..] == "celebs.csv";
      assert "images.csv"[0] != "celebs.csv"[0];
    }
  }
}
