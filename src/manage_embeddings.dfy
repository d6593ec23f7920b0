/** The sync logic of the celebrity embedding management script
    (scripts/manage_embeddings.py): the Firestore documents are merged into
    the local tables, which are saved in sorted order beside one embedding
    row per celebrity. */
module ManageEmbeddings {
  import opened Wrappers
  import opened PyDict
  import Sorting
  import Arrays

  /** A table row as the script holds it; Python's `None` is `None`. */
  type Row = map<string, Option<string>>

  /** A row as `csv.DictReader` yields it. */
  type CsvRow = map<string, string>

  /** The key of an image row: `(celeb_id, expression)`. */
  type ImageKey = (string, string)

  /** One document of the `celeb_embeddings` collection; a field the document
      does not have is `None`, an `embedding` that is not a list is `None`.
      A field stored as null is not told apart from a missing one. */
  datatype Doc = Doc(id: string, name: Option<string>, gender: Option<string>, birthYear: Option<string>,
                     agency: Option<string>, imagePath: Option<string>, expression: Option<string>,
                     embedding: Option<seq<real>>)

  /** What `fetch_from_firebase` keeps of a document: every key is stored,
      the missing ones as `None`, except `name` ("" when missing) and
      `expression` ("neutral" when missing). */
  datatype Entry = Entry(name: string, gender: Option<string>, birthYear: Option<string>, agency: Option<string>,
                         imagePath: Option<string>, expression: string, embedding: Option<seq<real>>)

  function Fetched(doc: Doc): (r: Entry)
    ensures doc.name.Some? ==> r.name == doc.name.value
    ensures doc.name.None? ==> r.name == ""
    ensures doc.expression.Some? ==> r.expression == doc.expression.value
    ensures doc.expression.None? ==> r.expression == "neutral"
    ensures r.gender == doc.gender && r.birthYear == doc.birthYear && r.agency == doc.agency
    ensures r.imagePath == doc.imagePath && r.embedding == doc.embedding
  {
    Entry(doc.name.GetOr(""), doc.gender, doc.birthYear, doc.agency, doc.imagePath,
          doc.expression.GetOr("neutral"), doc.embedding)
  }

  function DocId(doc: Doc): string {
    doc.id
  }

  /** `row.get(col, default)`. */
  function Field(row: Row, col: string, default: Option<string>): Option<string> {
    if col in row then row[col] else default
  }

  /** A row read from a CSV file: every value is a string. */
  function Lift(row: CsvRow): Row {
    map k | k in row :: Some(row[k])
  }

  /** The key a celebs.csv row is filed under: `row.get("celeb_id", "")`. */
  function CelebKey(row: CsvRow): string {
    if "celeb_id" in row then row["celeb_id"] else ""
  }

  /** The key an images.csv row is filed under. */
  function ImageKeyOf(row: CsvRow): ImageKey {
    (if "celeb_id" in row then row["celeb_id"] else "",
     if "expression" in row then row["expression"] else "neutral")
  }

  /** Every celebrity row names the id it is filed under. */
  predicate IdsMatch(d: Dict<string, Row>) {
    forall k :: k in d.vals ==> Field(d.vals[k], "celeb_id", Some(k)) == Some(k)
  }

  /** Every image row names the id and the expression it is filed under. */
  predicate ImageKeysMatch(d: Dict<ImageKey, Row>) {
    forall k :: k in d.vals ==>
      Field(d.vals[k], "celeb_id", Some(k.0)) == Some(k.0) && Field(d.vals[k], "expression", Some(k.1)) == Some(k.1)
  }

  /** A row read from a file names the keys it is filed under. */
  lemma LiftKeys(row: CsvRow)
    ensures Field(Lift(row), "celeb_id", Some(CelebKey(row))) == Some(CelebKey(row))
    ensures Field(Lift(row), "celeb_id", Some(ImageKeyOf(row).0)) == Some(ImageKeyOf(row).0)
    ensures Field(Lift(row), "expression", Some(ImageKeyOf(row).1)) == Some(ImageKeyOf(row).1)
  {
  }

  lemma PutMatching(d: Dict<string, Row>, k: string, v: Row)
    requires IdsMatch(d) && Field(v, "celeb_id", Some(k)) == Some(k)
    ensures IdsMatch(Put(d, k, v))
  {
  }

  lemma PutImageMatching(d: Dict<ImageKey, Row>, k: ImageKey, v: Row)
    requires ImageKeysMatch(d) && Field(v, "celeb_id", Some(k.0)) == Some(k.0)
    requires Field(v, "expression", Some(k.1)) == Some(k.1)
    ensures ImageKeysMatch(Put(d, k, v))
  {
  }

  // ----- merge_data -----

  /** The row of a celebrity only Firestore knows. `fb_data` always holds a
      "name", so `celeb_name` and `name` are the fetched name, never the id. */
  function NewRow(id: string, f: Entry): Row {
    map["celeb_id" := Some(id), "celeb_name" := Some(f.name), "name" := Some(f.name),
        "gender" := f.gender, "birth_year" := f.birthYear, "agency" := f.agency]
  }

  /** Sync mode overwrites these three fields of a known celebrity. */
  function Updated(row: Row, f: Entry): Row {
    row["gender" := f.gender]["birth_year" := f.birthYear]["agency" := f.agency]
  }

  /** The image row of a document. `fb_data` always holds an "image_path",
      so the `famous/...` default is never used. */
  function ImageRow(id: string, f: Entry): Row {
    map["celeb_id" := Some(id), "image_path" := f.imagePath, "expression" := Some(f.expression)]
  }

  /** One turn of the merge loop on the celebrity table. */
  function MergeCeleb(mode: string, c: Dict<string, Row>, id: string, f: Entry): Dict<string, Row> {
    if id !in c.vals then Put(c, id, NewRow(id, f))
    else if mode == "sync" then Put(c, id, Updated(c.vals[id], f))
    else c
  }

  /** One turn of the merge loop on the image table. */
  function MergeImage(im: Dict<ImageKey, Row>, id: string, f: Entry): Dict<ImageKey, Row> {
    if (id, f.expression) !in im.vals then Put(im, (id, f.expression), ImageRow(id, f)) else im
  }

  /** The celebrity table after the merge loop has seen the ids `ks`. */
  function MergedCelebs(mode: string, c: Dict<string, Row>, fb: Dict<string, Entry>, ks: seq<string>)
    : (r: Dict<string, Row>)
    requires forall k <- ks :: k in fb.vals
    ensures Valid(c) ==> Valid(r)
  {
    if ks == [] then c
    else MergeCeleb(mode, MergedCelebs(mode, c, fb, ks[..|ks| - 1]), ks[|ks| - 1], fb.vals[ks[|ks| - 1]])
  }

  /** The image table after the merge loop has seen the ids `ks`. */
  function MergedImages(im: Dict<ImageKey, Row>, fb: Dict<string, Entry>, ks: seq<string>): (r: Dict<ImageKey, Row>)
    requires forall k <- ks :: k in fb.vals
    ensures Valid(im) ==> Valid(r)
  {
    if ks == [] then im
    else MergeImage(MergedImages(im, fb, ks[..|ks| - 1]), ks[|ks| - 1], fb.vals[ks[|ks| - 1]])
  }

  /** The ids of `ks` the table `c` does not know, in order. */
  function NewIds(ks: seq<string>, c: Dict<string, Row>): (r: seq<string>)
    ensures |r| <= |ks|
    ensures forall x :: x in r <==> x in ks && x !in c.vals
  {
    if ks == [] then []
    else
      assert ks == ks[..|ks| - 1] + [ks[|ks| - 1]];
      NewIds(ks[..|ks| - 1], c) + (if ks[|ks| - 1] !in c.vals then [ks[|ks| - 1]] else [])
  }

  /** The merged row of one id, by cases: a local row is kept, or in sync
      mode updated; an id only Firestore has gets a new row. */
  function MergedRow(mode: string, local: Option<Row>, remote: Option<Entry>, id: string): Option<Row> {
    match remote
    case None => local
    case Some(f) =>
      if local.None? then Some(NewRow(id, f))
      else if mode == "sync" then Some(Updated(local.value, f))
      else local
  }

  /** The merged image row of one key: a local row is never overwritten; the
      document of its id adds one when its expression matches. */
  function MergedImageRow(local: Option<Row>, key: ImageKey, remote: Option<Entry>): Option<Row> {
    if local.Some? then local
    else if remote.Some? && remote.value.expression == key.1 then Some(ImageRow(key.0, remote.value))
    else None
  }

  predicate Distinct<T(==)>(s: seq<T>) {
    forall i, j :: 0 <= i < j < |s| ==> s[i] != s[j]
  }

  lemma LastNotEarlier<T>(s: seq<T>)
    requires Distinct(s) && s != []
    ensures Distinct(s[..|s| - 1]) && s[|s| - 1] !in s[..|s| - 1]
  {
  }

  /** Whatever the order in which the ids come, each id's merged row is
      given by `MergedRow`. */
  lemma {:induction false} CelebsMergedAt(mode: string, c: Dict<string, Row>, fb: Dict<string, Entry>,
                                          ks: seq<string>, id: string)
    requires forall k <- ks :: k in fb.vals
    requires Distinct(ks)
    ensures Get(MergedCelebs(mode, c, fb, ks), id)
      == MergedRow(mode, Get(c, id), if id in ks then Some(fb.vals[id]) else None, id)
  {
    if ks != [] {
      var init := ks[..|ks| - 1];
      LastNotEarlier(ks);
      CelebsMergedAt(mode, c, fb, init, id);
      assert ks == init + [ks[|ks| - 1]];
    }
  }

  /** Each image key's merged row is given by `MergedImageRow`. */
  lemma {:induction false} ImagesMergedAt(im: Dict<ImageKey, Row>, fb: Dict<string, Entry>, ks: seq<string>,
                                          key: ImageKey)
    requires forall k <- ks :: k in fb.vals
    requires Distinct(ks)
    ensures Get(MergedImages(im, fb, ks), key)
      == MergedImageRow(Get(im, key), key, if key.0 in ks then Some(fb.vals[key.0]) else None)
  {
    if ks != [] {
      var init := ks[..|ks| - 1];
      LastNotEarlier(ks);
      ImagesMergedAt(im, fb, init, key);
      assert ks == init + [ks[|ks| - 1]];
    }
  }

  /** After the merge the celebrity ids are exactly the local ids and the
      Firestore ids; starting from no local rows, exactly the Firestore ids. */
  lemma MergedUnion(mode: string, c: Dict<string, Row>, fb: Dict<string, Entry>, id: string)
    requires PyDict.Valid(fb)
    ensures id in MergedCelebs(mode, c, fb, fb.keys).vals <==> id in c.vals || id in fb.vals
    ensures c == Empty() ==> (id in MergedCelebs(mode, c, fb, fb.keys).vals <==> id in fb.vals)
  {
    CelebsMergedAt(mode, c, fb, fb.keys, id);
  }

  // ----- _save_celebs_csv, _save_images_csv -----

  /** `sorted(d.keys())` of a dict whose keys `le` orders totally. */
  function SortedKeys<K(!new), V>(d: Dict<K, V>, le: (K, K) -> bool): (r: seq<K>)
    requires PyDict.Valid(d) && Sorting.TotalPreorder(le)
    requires forall x, y :: le(x, y) && le(y, x) ==> x == y
    ensures |r| == |d.keys|
    ensures forall k :: k in r <==> k in d.vals
    ensures forall i, j :: 0 <= i < j < |r| ==> le(r[i], r[j]) && r[i] != r[j]
  {
    var r := Sorting.SortBy(d.keys, le);
    Sorting.SortBySorted(d.keys, le);
    Sorting.SortByPermutation(d.keys, le);
    DistinctPermutation(d.keys, r);
    assert forall k :: k in r <==> k in multiset(d.keys);
    r
  }

  lemma {:induction false} DistinctCount<T>(s: seq<T>, x: T)
    requires Distinct(s)
    ensures multiset(s)[x] <= 1
  {
    if s != [] {
      assert s == [s[0]] + s[1..];
      DistinctCount(s[1..], x);
      if s[0] == x {
        assert x !in s[1..];
      }
    }
  }

  lemma TwiceCounted<T>(s: seq<T>, i: nat, j: nat)
    requires i < j < |s| && s[i] == s[j]
    ensures multiset(s)[s[i]] >= 2
  {
    assert s == s[..j] + s[j..];
    assert s[i] in s[..j] && s[j] in s[j..];
  }

  lemma DistinctPermutation<T>(a: seq<T>, b: seq<T>)
    requires Distinct(a) && multiset(a) == multiset(b)
    ensures Distinct(b)
  {
    forall i, j | 0 <= i < j < |b| ensures b[i] != b[j] {
      DistinctCount(a, b[i]);
      if b[i] == b[j] {
        TwiceCounted(b, i, j);
      }
    }
  }

  function SortedIds(d: Dict<string, Row>): (r: seq<string>)
    requires PyDict.Valid(d)
    ensures |r| == |d.keys|
    ensures forall k :: k in r <==> k in d.vals
    ensures forall i, j :: 0 <= i < j < |r| ==> Sorting.StrLe(r[i], r[j]) && r[i] != r[j]
  {
    Sorting.StrOrder();
    SortedKeys(d, Sorting.StrLe)
  }

  function SortedImageKeys(d: Dict<ImageKey, Row>): (r: seq<ImageKey>)
    requires PyDict.Valid(d)
    ensures |r| == |d.keys|
    ensures forall k :: k in r <==> k in d.vals
    ensures forall i, j :: 0 <= i < j < |r| ==> Sorting.PairLe(r[i], r[j]) && r[i] != r[j]
  {
    Sorting.PairOrder();
    SortedKeys(d, Sorting.PairLe)
  }

  /** A CSV cell: `DictWriter` writes `None` as "". */
  function Cell(v: Option<string>): string {
    v.GetOr("")
  }

  datatype CelebLine = CelebLine(celebId: string, celebName: string, name: string, gender: string,
                                 birthYear: string, agency: string)

  datatype ImageLine = ImageLine(celebId: string, imagePath: string, expression: string)

  /** The celebs.csv line of one row, with the defaults of `writerow`. */
  function CelebLineOf(id: string, row: Row): CelebLine {
    CelebLine(Cell(Field(row, "celeb_id", Some(id))), Cell(Field(row, "celeb_name", Field(row, "name", Some(id)))),
              Cell(Field(row, "name", Some(id))), Cell(Field(row, "gender", Some(""))),
              Cell(Field(row, "birth_year", Some(""))), Cell(Field(row, "agency", Some(""))))
  }

  /** The images.csv line of one row, with the defaults of `writerow`. */
  function ImageLineOf(key: ImageKey, row: Row): ImageLine {
    ImageLine(Cell(Field(row, "celeb_id", Some(key.0))), Cell(Field(row, "image_path", Some(""))),
              Cell(Field(row, "expression", Some(key.1))))
  }

  /** The data lines of celebs.csv: one per celebrity, in sorted id order. */
  function CelebsCsv(d: Dict<string, Row>): (lines: seq<CelebLine>)
    requires PyDict.Valid(d)
    ensures |lines| == |d.keys|
    ensures forall i :: 0 <= i < |lines| ==> lines[i] == CelebLineOf(SortedIds(d)[i], d.vals[SortedIds(d)[i]])
  {
    var ids := SortedIds(d);
    seq(|ids|, i requires 0 <= i < |ids| => CelebLineOf(ids[i], d.vals[ids[i]]))
  }

  /** The data lines of images.csv: one per image key, in sorted key order. */
  function ImagesCsv(d: Dict<ImageKey, Row>): (lines: seq<ImageLine>)
    requires PyDict.Valid(d)
    ensures |lines| == |d.keys|
    ensures forall i :: 0 <= i < |lines| ==>
      lines[i] == ImageLineOf(SortedImageKeys(d)[i], d.vals[SortedImageKeys(d)[i]])
  {
    var keys := SortedImageKeys(d);
    seq(|keys|, i requires 0 <= i < |keys| => ImageLineOf(keys[i], d.vals[keys[i]]))
  }

  /** celebs.csv lists each celebrity once, in strictly increasing
      `celeb_id` order. */
  lemma CelebsCsvOrdered(d: Dict<string, Row>)
    requires PyDict.Valid(d) && IdsMatch(d)
    ensures var lines := CelebsCsv(d);
      && (forall i, j :: 0 <= i < j < |lines| ==>
            Sorting.StrLe(lines[i].celebId, lines[j].celebId) && lines[i].celebId != lines[j].celebId)
      && (forall i :: 0 <= i < |lines| ==> lines[i].celebId in d.vals)
      && (forall k :: k in d.vals ==> exists i :: 0 <= i < |lines| && lines[i].celebId == k)
  {
    var ids := SortedIds(d);
    var lines := CelebsCsv(d);
    assert forall i :: 0 <= i < |lines| ==> lines[i].celebId == ids[i];
    forall k | k in d.vals ensures exists i :: 0 <= i < |lines| && lines[i].celebId == k {
      var i :| 0 <= i < |ids| && ids[i] == k;
      assert lines[i].celebId == k;
    }
  }

  /** images.csv lists each image key once, in strictly increasing
      `(celeb_id, expression)` order. */
  lemma ImagesCsvOrdered(d: Dict<ImageKey, Row>)
    requires PyDict.Valid(d) && ImageKeysMatch(d)
    ensures var lines := ImagesCsv(d);
      && (forall i, j :: 0 <= i < j < |lines| ==>
            Sorting.PairLe((lines[i].celebId, lines[i].expression), (lines[j].celebId, lines[j].expression))
            && (lines[i].celebId, lines[i].expression) != (lines[j].celebId, lines[j].expression))
      && (forall k :: k in d.vals ==>
            exists i :: 0 <= i < |lines| && lines[i].celebId == k.0 && lines[i].expression == k.1)
  {
    var keys := SortedImageKeys(d);
    var lines := ImagesCsv(d);
    assert forall i :: 0 <= i < |lines| ==> (lines[i].celebId, lines[i].expression) == keys[i];
    forall k | k in d.vals ensures exists i :: 0 <= i < |lines| && lines[i].celebId == k.0 && lines[i].expression == k.1 {
      var i :| 0 <= i < |keys| && keys[i] == k;
      assert (lines[i].celebId, lines[i].expression) == k;
    }
  }

  /** A celebrity first seen in Firestore is written with the fetched name
      as both names, "" when the document has none, never its id; its image
      line carries the fetched path, "" when the document has none, never the
      `famous/...` default. */
  lemma NewCelebLines(doc: Doc)
    ensures var line := CelebLineOf(doc.id, NewRow(doc.id, Fetched(doc)));
      line.celebId == doc.id && line.celebName == line.name == doc.name.GetOr("")
      && line.gender == Cell(doc.gender) && line.birthYear == Cell(doc.birthYear) && line.agency == Cell(doc.agency)
    ensures var f := Fetched(doc);
      ImageLineOf((doc.id, f.expression), ImageRow(doc.id, f))
      == ImageLine(doc.id, doc.imagePath.GetOr(""), doc.expression.GetOr("neutral"))
  {
  }

  // ----- _save_embeddings -----

  /** The length of the zero vector standing in for a missing embedding. */
  const EmbeddingDim: nat := 512

  function Zeros(n: nat): (z: seq<real>)
    ensures |z| == n && forall i :: 0 <= i < n ==> z[i] == 0.0
  {
    seq(n, _ => 0.0)
  }

  /** Firestore gave no embedding for `id`. */
  predicate Lacks(fb: Dict<string, Entry>, id: string) {
    !(id in fb.vals && fb.vals[id].embedding.Some?)
  }

  /** The saved row of one celebrity. */
  function EmbeddingOf(fb: Dict<string, Entry>, id: string): (r: seq<real>)
    ensures Lacks(fb, id) ==> r == Zeros(EmbeddingDim)
    ensures !Lacks(fb, id) ==> r == fb.vals[id].embedding.value
  {
    if !Lacks(fb, id) then fb.vals[id].embedding.value else Zeros(EmbeddingDim)
  }

  /** The ids with no Firestore embedding, in order. */
  function Missing(ids: seq<string>, fb: Dict<string, Entry>): (r: seq<string>)
    ensures |r| <= |ids|
    ensures forall x :: x in r <==> x in ids && Lacks(fb, x)
  {
    if ids == [] then []
    else
      assert ids == ids[..|ids| - 1] + [ids[|ids| - 1]];
      Missing(ids[..|ids| - 1], fb) + (if Lacks(fb, ids[|ids| - 1]) then [ids[|ids| - 1]] else [])
  }

  /** `np.array(rows, dtype=np.float32)`: rows of one length make a matrix
      (an empty list a 1-D array of length 0); rows of different lengths
      raise. */
  function Stacked(rows: seq<seq<real>>): (r: Option<Arrays.NdArray>)
    ensures r.Some? <==> forall i, j :: 0 <= i < j < |rows| ==> |rows[i]| == |rows[j]|
    ensures r.Some? ==> r.value.rows == rows
    ensures r.Some? && rows != [] ==> r.value.shape == [|rows|, |rows[0]|]
    ensures r.Some? && rows == [] ==> r.value.shape == [0]
  {
    if forall i, j :: 0 <= i < j < |rows| ==> |rows[i]| == |rows[j]| then
      Some(Arrays.NdArray(if rows == [] then [0] else [|rows|, |rows[0]|], rows))
    else None
  }

  /** What `save_files` leaves on disk: both CSV files, then the two arrays
      unless building the matrix raised. */
  datatype Saved = Saved(celebsCsv: seq<CelebLine>, imagesCsv: seq<ImageLine>,
                         arrays: Option<(Arrays.NdArray, seq<string>)>)

  /** The embedding rows of `ids`, in order. */
  function Rows(ids: seq<string>, fb: Dict<string, Entry>): (rows: seq<seq<real>>)
    ensures |rows| == |ids| && forall i :: 0 <= i < |ids| ==> rows[i] == EmbeddingOf(fb, ids[i])
  {
    seq(|ids|, i requires 0 <= i < |ids| => EmbeddingOf(fb, ids[i]))
  }

  /** One more id: one more row, and one more missing id when it lacks an embedding. */
  lemma RowsNext(ids: seq<string>, fb: Dict<string, Entry>, i: nat)
    requires i < |ids|
    ensures Rows(ids[..i + 1], fb) == Rows(ids[..i], fb) + [EmbeddingOf(fb, ids[i])]
    ensures Missing(ids[..i + 1], fb) == Missing(ids[..i], fb) + (if Lacks(fb, ids[i]) then [ids[i]] else [])
  {
    assert ids[..i + 1][..i] == ids[..i];
  }

  /** The loop of `_save_embeddings`: for each id in turn, its Firestore
      embedding, or else 512 zeros and one more missing id. */
  method EmbeddingRows(ids: seq<string>, fb: Dict<string, Entry>) returns (rows: seq<seq<real>>, missingCount: nat)
    ensures rows == Rows(ids, fb)
    ensures missingCount == |Missing(ids, fb)|
  {
    rows := [];
    missingCount := 0;
    var i := 0;
    assert ids[..0] == [];
    while i < |ids|
      invariant 0 <= i <= |ids|
      invariant Built(ids, fb, i, rows, missingCount)
    {
      var id := ids[i];
      var row, count;
      if id in fb.vals && fb.vals[id].embedding.Some? {
        row, count := fb.vals[id].embedding.value, missingCount;
      } else {
        row, count := Zeros(EmbeddingDim), missingCount + 1;
      }
      BuiltNext(ids, fb, i, rows, missingCount, row, count);
      rows, missingCount := rows + [row], count;
      i := i + 1;
    }
    assert ids[..|ids|] == ids;
  }

  /** The rows and the missing count after the first `i` ids. */
  ghost predicate Built(ids: seq<string>, fb: Dict<string, Entry>, i: nat, rows: seq<seq<real>>, missingCount: nat)
    requires i <= |ids|
  {
    rows == Rows(ids[..i], fb) && missingCount == |Missing(ids[..i], fb)|
  }

  lemma BuiltNext(ids: seq<string>, fb: Dict<string, Entry>, i: nat, rows: seq<seq<real>>, missingCount: nat,
                  row: seq<real>, count: nat)
    requires i < |ids| && Built(ids, fb, i, rows, missingCount)
    requires row == EmbeddingOf(fb, ids[i]) && count == missingCount + (if Lacks(fb, ids[i]) then 1 else 0)
    ensures Built(ids, fb, i + 1, rows + [row], count)
  {
    RowsNext(ids, fb, i);
  }

  /** embed.npy and ids.npy, unless building the matrix raised. */
  function ArraysOf(c: Dict<string, Row>, fb: Dict<string, Entry>): Option<(Arrays.NdArray, seq<string>)>
    requires PyDict.Valid(c)
  {
    match Stacked(Rows(SortedIds(c), fb))
    case None => None
    case Some(m) => Some((m, SortedIds(c)))
  }

  function SavedFrom(c: Dict<string, Row>, im: Dict<ImageKey, Row>, fb: Dict<string, Entry>): Saved
    requires PyDict.Valid(c) && PyDict.Valid(im)
  {
    Saved(CelebsCsv(c), ImagesCsv(im), ArraysOf(c, fb))
  }

  /** `validate` on what was saved: the matrix must have 512 columns; a 1-D
      array fails on `shape[1]`. */
  predicate Validated(m: Arrays.NdArray) {
    |m.shape| >= 2 && m.shape[1] == EmbeddingDim
  }

  /** When every Firestore embedding has 512 values, the save succeeds with
      one row per celebrity, and a non-empty table validates. */
  lemma FullWidthValidates(c: Dict<string, Row>, im: Dict<ImageKey, Row>, fb: Dict<string, Entry>)
    requires PyDict.Valid(c) && PyDict.Valid(im)
    requires forall id :: id in fb.vals && fb.vals[id].embedding.Some? ==> |fb.vals[id].embedding.value| == EmbeddingDim
    ensures var s := SavedFrom(c, im, fb);
      s.arrays.Some? && s.arrays.value.1 == SortedIds(c)
      && (c.keys != [] ==> s.arrays.value.0.shape == [|c.keys|, EmbeddingDim] && Validated(s.arrays.value.0))
  {
    var rows := Rows(SortedIds(c), fb);
    assert forall i :: 0 <= i < |rows| ==> |rows[i]| == EmbeddingDim;
  }

  /** Only the modes "merge" and "sync" read the local files. */
  function LocalCelebs(mode: string, c: Dict<string, Row>, file: Option<seq<CsvRow>>): Dict<string, Row> {
    if (mode == "merge" || mode == "sync") && file.Some? then PutAll(c, file.value, CelebKey, Lift) else c
  }

  function LocalImages(mode: string, im: Dict<ImageKey, Row>, file: Option<seq<CsvRow>>): Dict<ImageKey, Row> {
    if (mode == "merge" || mode == "sync") && file.Some? then PutAll(im, file.value, ImageKeyOf, Lift) else im
  }

  /** A later CSV row with the same key replaces an earlier one. */
  lemma LastRowWins(c: Dict<string, Row>, rows: seq<CsvRow>, id: string)
    ensures Get(PutAll(c, rows, CelebKey, Lift), id)
      == match LastWith(rows, CelebKey, id) case None => Get(c, id) case Some(j) => Some(Lift(rows[j]))
  {
    PutAllAt(c, rows, CelebKey, Lift, id);
  }

  /** The loop of `load_local_files` over the rows of celebs.csv. */
  method LoadCelebRows(c: Dict<string, Row>, rows: seq<CsvRow>) returns (r: Dict<string, Row>)
    requires IdsMatch(c)
    ensures r == PutAll(c, rows, CelebKey, Lift) && IdsMatch(r)
  {
    r := c;
    var i := 0;
    while i < |rows|
      invariant 0 <= i <= |rows|
      invariant r == PutAll(c, rows[..i], CelebKey, Lift) && IdsMatch(r)
    {
      assert rows[..i + 1][..i] == rows[..i];
      LiftKeys(rows[i]);
      PutMatching(r, CelebKey(rows[i]), Lift(rows[i]));
      r := Put(r, CelebKey(rows[i]), Lift(rows[i]));
      i := i + 1;
    }
    assert rows[..|rows|] == rows;
  }

  /** The loop of `load_local_files` over the rows of images.csv. */
  method LoadImageRows(im: Dict<ImageKey, Row>, rows: seq<CsvRow>) returns (r: Dict<ImageKey, Row>)
    requires ImageKeysMatch(im)
    ensures r == PutAll(im, rows, ImageKeyOf, Lift) && ImageKeysMatch(r)
  {
    r := im;
    var i := 0;
    while i < |rows|
      invariant 0 <= i <= |rows|
      invariant r == PutAll(im, rows[..i], ImageKeyOf, Lift) && ImageKeysMatch(r)
    {
      assert rows[..i + 1][..i] == rows[..i];
      LiftKeys(rows[i]);
      PutImageMatching(r, ImageKeyOf(rows[i]), Lift(rows[i]));
      r := Put(r, ImageKeyOf(rows[i]), Lift(rows[i]));
      i := i + 1;
    }
    assert rows[..|rows|] == rows;
  }

  /** A dict lists each of its keys once, so every listed key is mapped. */
  lemma KeysMapped<K, V>(d: Dict<K, V>)
    requires PyDict.Valid(d)
    ensures forall k <- d.keys :: k in d.vals
  {
    forall k <- d.keys ensures k in d.vals {
      var j :| 0 <= j < |d.keys| && d.keys[j] == k;
    }
  }

  /** The merge loop's tables and its list of new ids grow by one turn per id. */
  lemma MergeSnoc(mode: string, c0: Dict<string, Row>, im0: Dict<ImageKey, Row>, fb: Dict<string, Entry>, i: nat)
    requires i < |fb.keys| && forall k <- fb.keys :: k in fb.vals
    ensures var ks := fb.keys; var id := ks[i];
      && MergedCelebs(mode, c0, fb, ks[..i + 1]) == MergeCeleb(mode, MergedCelebs(mode, c0, fb, ks[..i]), id, fb.vals[id])
      && MergedImages(im0, fb, ks[..i + 1]) == MergeImage(MergedImages(im0, fb, ks[..i]), id, fb.vals[id])
      && NewIds(ks[..i + 1], c0) == NewIds(ks[..i], c0) + (if id in c0.vals then [] else [id])
  {
    assert fb.keys[..i + 1][..i] == fb.keys[..i];
  }

  /** The merged celebrity table lists the local ids, then the new ids in
      the order Firestore gave them. */
  lemma {:induction false} MergedKeys(mode: string, c0: Dict<string, Row>, fb: Dict<string, Entry>, ks: seq<string>)
    requires (forall k <- ks :: k in fb.vals) && Distinct(ks)
    ensures MergedCelebs(mode, c0, fb, ks).keys == c0.keys + NewIds(ks, c0)
  {
    if ks == [] {
      assert c0.keys + [] == c0.keys;
    } else {
      var init, id := ks[..|ks| - 1], ks[|ks| - 1];
      LastNotEarlier(ks);
      MergedKeys(mode, c0, fb, init);
      CelebsMergedAt(mode, c0, fb, init, id);
      var pre := MergedCelebs(mode, c0, fb, init);
      assert id in pre.vals <==> id in c0.vals;
      CelebStep(mode, pre, id, fb.vals[id]);
      var tail := if id in c0.vals then [] else [id];
      assert c0.keys + NewIds(init, c0) + tail == c0.keys + (NewIds(init, c0) + tail);
    }
  }

  /** One more turn of the merge loop on the celebrity table keeps the rows
      filed under their ids and appends the id when it is new. */
  lemma CelebStep(mode: string, pre: Dict<string, Row>, id: string, f: Entry)
    ensures var post := MergeCeleb(mode, pre, id, f);
      && (IdsMatch(pre) ==> IdsMatch(post)) && post.keys == pre.keys + (if id in pre.vals then [] else [id])
  {
    if IdsMatch(pre) && id !in pre.vals {
      PutMatching(pre, id, NewRow(id, f));
    } else if IdsMatch(pre) && mode == "sync" {
      PutMatching(pre, id, Updated(pre.vals[id], f));
    }
  }

  /** One more turn of the merge loop on the image table keeps the rows filed
      under their keys and adds a key only when it is new. */
  lemma ImageStep(pre: Dict<ImageKey, Row>, id: string, f: Entry)
    requires ImageKeysMatch(pre)
    ensures var post := MergeImage(pre, id, f);
      && ImageKeysMatch(post) && |post.keys| == |pre.keys| + (if (id, f.expression) in pre.vals then 0 else 1)
  {
    if (id, f.expression) !in pre.vals {
      PutImageMatching(pre, (id, f.expression), ImageRow(id, f));
    }
  }

  /** The body of the merge loop on the celebrity table: a new id gets a
      row, a known one is updated in sync mode and left alone otherwise. */
  method MergeOneCeleb(mode: string, c: Dict<string, Row>, id: string, f: Entry)
    returns (r: Dict<string, Row>, added: bool, updated: bool)
    ensures r == MergeCeleb(mode, c, id, f)
    ensures added <==> id !in c.vals
    ensures updated <==> id in c.vals && mode == "sync"
  {
    r, added, updated := c, false, false;
    if id !in c.vals {
      r := Put(c, id, NewRow(id, f));
      added := true;
    } else if mode == "sync" {
      r := Put(c, id, Updated(c.vals[id], f));
      updated := true;
    }
  }

  /** The body of the merge loop on the image table: a row is added only for
      a key the table does not hold. */
  method MergeOneImage(im: Dict<ImageKey, Row>, id: string, f: Entry) returns (r: Dict<ImageKey, Row>, added: bool)
    ensures r == MergeImage(im, id, f)
    ensures added <==> (id, f.expression) !in im.vals
  {
    r, added := im, false;
    if (id, f.expression) !in im.vals {
      r := Put(im, (id, f.expression), ImageRow(id, f));
      added := true;
    }
  }

  /** The loop of `merge_data`, on copies of the two tables. */
  method MergeTables(mode: string, c0: Dict<string, Row>, im0: Dict<ImageKey, Row>, fb: Dict<string, Entry>)
    returns (celebs: Dict<string, Row>, images: Dict<ImageKey, Row>, newCelebs: nat, newImages: nat,
             updatedCelebs: nat)
    requires Distinct(fb.keys) && (forall k <- fb.keys :: k in fb.vals) && IdsMatch(c0) && ImageKeysMatch(im0)
    ensures celebs == MergedCelebs(mode, c0, fb, fb.keys) && images == MergedImages(im0, fb, fb.keys)
    ensures IdsMatch(celebs) && ImageKeysMatch(images)
    ensures celebs.keys == c0.keys + NewIds(fb.keys, c0)
    ensures newCelebs == |NewIds(fb.keys, c0)|
    ensures updatedCelebs == if mode == "sync" then |fb.keys| - newCelebs else 0
    ensures |images.keys| == |im0.keys| + newImages
  {
    var ks := fb.keys;
    celebs, images := c0, im0;
    newCelebs, newImages, updatedCelebs := 0, 0, 0;
    var i := 0;
    MergingStart(mode, c0, im0, fb);
    while i < |ks|
      invariant 0 <= i <= |ks|
      invariant Merging(mode, c0, im0, fb, i, celebs, images, newCelebs, newImages, updatedCelebs)
    {
      celebs, images, newCelebs, newImages, updatedCelebs :=
        MergeTurn(mode, c0, im0, fb, i, celebs, images, newCelebs, newImages, updatedCelebs);
      i := i + 1;
    }
    MergingDone(mode, c0, im0, fb, celebs, images, newCelebs, newImages, updatedCelebs);
  }

  /** One turn of the merge loop: the fetched id at `i` is merged into both
      tables and counted. */
  method MergeTurn(mode: string, c0: Dict<string, Row>, im0: Dict<ImageKey, Row>, fb: Dict<string, Entry>,
                   i: nat, celebs: Dict<string, Row>, images: Dict<ImageKey, Row>,
                   newCelebs: nat, newImages: nat, updatedCelebs: nat)
    returns (c1: Dict<string, Row>, im1: Dict<ImageKey, Row>, nc: nat, ni: nat, uc: nat)
    requires i < |fb.keys| && forall k <- fb.keys :: k in fb.vals
    requires Merging(mode, c0, im0, fb, i, celebs, images, newCelebs, newImages, updatedCelebs)
    ensures Merging(mode, c0, im0, fb, i + 1, c1, im1, nc, ni, uc)
  {
    var id := fb.keys[i];
    var f := fb.vals[id];
    var added, updated, addedImage;
    c1, added, updated := MergeOneCeleb(mode, celebs, id, f);
    im1, addedImage := MergeOneImage(images, id, f);
    nc := newCelebs + (if added then 1 else 0);
    ni := newImages + (if addedImage then 1 else 0);
    uc := updatedCelebs + (if updated then 1 else 0);
    MergingStep(mode, c0, im0, fb, i, celebs, images, newCelebs, newImages, updatedCelebs,
                c1, im1, added, updated, addedImage, nc, ni, uc);
  }

  lemma MergingStart(mode: string, c0: Dict<string, Row>, im0: Dict<ImageKey, Row>, fb: Dict<string, Entry>)
    requires (forall k <- fb.keys :: k in fb.vals) && IdsMatch(c0) && ImageKeysMatch(im0)
    ensures Merging(mode, c0, im0, fb, 0, c0, im0, 0, 0, 0)
  {
    assert fb.keys[..0] == [];
  }

  lemma MergingDone(mode: string, c0: Dict<string, Row>, im0: Dict<ImageKey, Row>, fb: Dict<string, Entry>,
                    celebs: Dict<string, Row>, images: Dict<ImageKey, Row>,
                    newCelebs: nat, newImages: nat, updatedCelebs: nat)
    requires Distinct(fb.keys) && forall k <- fb.keys :: k in fb.vals
    requires Merging(mode, c0, im0, fb, |fb.keys|, celebs, images, newCelebs, newImages, updatedCelebs)
    ensures celebs == MergedCelebs(mode, c0, fb, fb.keys) && images == MergedImages(im0, fb, fb.keys)
    ensures IdsMatch(celebs) && ImageKeysMatch(images)
    ensures celebs.keys == c0.keys + NewIds(fb.keys, c0)
    ensures newCelebs == |NewIds(fb.keys, c0)|
    ensures updatedCelebs == if mode == "sync" then |fb.keys| - newCelebs else 0
    ensures |images.keys| == |im0.keys| + newImages
  {
    assert fb.keys[..|fb.keys|] == fb.keys;
    MergedKeys(mode, c0, fb, fb.keys);
  }

  /** The state of the merge loop after the first `i` fetched ids. */
  ghost predicate Merging(mode: string, c0: Dict<string, Row>, im0: Dict<ImageKey, Row>, fb: Dict<string, Entry>,
                          i: nat, celebs: Dict<string, Row>, images: Dict<ImageKey, Row>,
                          newCelebs: nat, newImages: nat, updatedCelebs: nat)
    requires i <= |fb.keys| && forall k <- fb.keys :: k in fb.vals
  {
    && celebs == MergedCelebs(mode, c0, fb, fb.keys[..i]) && images == MergedImages(im0, fb, fb.keys[..i])
    && IdsMatch(celebs) && ImageKeysMatch(images)
    && |celebs.keys| == |c0.keys| + newCelebs
    && updatedCelebs == (if mode == "sync" then i - newCelebs else 0)
    && |images.keys| == |im0.keys| + newImages
  }

  /** One turn of the merge loop keeps its state. */
  lemma MergingStep(mode: string, c0: Dict<string, Row>, im0: Dict<ImageKey, Row>, fb: Dict<string, Entry>,
                    i: nat, celebs: Dict<string, Row>, images: Dict<ImageKey, Row>,
                    newCelebs: nat, newImages: nat, updatedCelebs: nat,
                    c1: Dict<string, Row>, im1: Dict<ImageKey, Row>, added: bool, updated: bool, addedImage: bool,
                    nc: nat, ni: nat, uc: nat)
    requires i < |fb.keys| && forall k <- fb.keys :: k in fb.vals
    requires Merging(mode, c0, im0, fb, i, celebs, images, newCelebs, newImages, updatedCelebs)
    requires c1 == MergeCeleb(mode, celebs, fb.keys[i], fb.vals[fb.keys[i]])
    requires added <==> fb.keys[i] !in celebs.vals
    requires updated <==> fb.keys[i] in celebs.vals && mode == "sync"
    requires im1 == MergeImage(images, fb.keys[i], fb.vals[fb.keys[i]])
    requires addedImage <==> (fb.keys[i], fb.vals[fb.keys[i]].expression) !in images.vals
    requires nc == newCelebs + (if added then 1 else 0) && ni == newImages + (if addedImage then 1 else 0)
    requires uc == updatedCelebs + (if updated then 1 else 0)
    ensures Merging(mode, c0, im0, fb, i + 1, c1, im1, nc, ni, uc)
  {
    var id := fb.keys[i];
    var f := fb.vals[id];
    MergeSnoc(mode, c0, im0, fb, i);
    CelebStep(mode, celebs, id, f);
    ImageStep(images, id, f);
  }

  /** How `run` ends: it returns, or an exception escapes it. */
  datatype RunEnd = Returned(ok: bool) | Raised(error: string)

  /** The exception the summary line raises. */
  const NoDataRoot := "AttributeError: 'CelebPaths' object has no attribute 'data_root'"

  /** `main`'s exit status: `sys.exit(0 if success else 1)`, and 1 for an
      exception that escapes `run`. */
  function ExitCode(end: RunEnd): (code: nat)
    ensures code == 0 <==> end == Returned(true)
    ensures code <= 1
  {
    match end
    case Returned(ok) => if ok then 0 else 1
    case Raised(_) => 1
  }

  /** The sync manager and its three tables. */
  class SyncManager {
    var mode: string
    var firebaseData: Dict<string, Entry>
    var localCelebs: Dict<string, Row>
    var localImages: Dict<ImageKey, Row>

    predicate Valid()
      reads this
    {
      PyDict.Valid(firebaseData) && PyDict.Valid(localCelebs) && PyDict.Valid(localImages)
      && IdsMatch(localCelebs) && ImageKeysMatch(localImages)
    }

    constructor(mode: string)
      ensures Valid() && this.mode == mode
      ensures firebaseData == Empty() && localCelebs == Empty() && localImages == Empty()
    {
      this.mode := mode;
      firebaseData := Empty();
      localCelebs := Empty();
      localImages := Empty();
    }

    /** `fetch_from_firebase`, given the documents the query streamed: no
        document is a failure; otherwise each is stored under its id. */
    method FetchFromFirebase(docs: seq<Doc>) returns (ok: bool)
      requires Valid()
      modifies this
      ensures Valid() && mode == old(mode) && localCelebs == old(localCelebs) && localImages == old(localImages)
      ensures ok <==> docs != []
      ensures firebaseData == PutAll(old(firebaseData), docs, DocId, Fetched)
    {
      if docs == [] {
        return false;
      }
      var fb := firebaseData;
      var i := 0;
      while i < |docs|
        invariant 0 <= i <= |docs|
        invariant fb == PutAll(firebaseData, docs[..i], DocId, Fetched)
      {
        assert docs[..i + 1][..i] == docs[..i];
        fb := Put(fb, docs[i].id, Fetched(docs[i]));
        i := i + 1;
      }
      assert docs[..|docs|] == docs;
      firebaseData := fb;
      return true;
    }

    /** `load_local_files`: the rows of each file that exists, filed under
        their key; it always succeeds. */
    method LoadLocalFiles(celebsFile: Option<seq<CsvRow>>, imagesFile: Option<seq<CsvRow>>)
      requires Valid()
      modifies this
      ensures Valid() && mode == old(mode) && firebaseData == old(firebaseData)
      ensures localCelebs == if celebsFile.Some? then PutAll(old(localCelebs), celebsFile.value, CelebKey, Lift)
                             else old(localCelebs)
      ensures localImages == if imagesFile.Some? then PutAll(old(localImages), imagesFile.value, ImageKeyOf, Lift)
                             else old(localImages)
    {
      if celebsFile.Some? {
        localCelebs := LoadCelebRows(localCelebs, celebsFile.value);
      }
      if imagesFile.Some? {
        localImages := LoadImageRows(localImages, imagesFile.value);
      }
    }

    /** `merge_data`: every Firestore id is merged into copies of the local
        tables, which then replace them. The counters count the new
        celebrities, the new image rows and, in sync mode, the updated
        celebrities. */
    method MergeData() returns (newCelebs: nat, newImages: nat, updatedCelebs: nat)
      requires Valid()
      modifies this
      ensures Valid() && mode == old(mode) && firebaseData == old(firebaseData)
      ensures localCelebs == MergedCelebs(mode, old(localCelebs), firebaseData, firebaseData.keys)
      ensures localImages == MergedImages(old(localImages), firebaseData, firebaseData.keys)
      ensures localCelebs.keys == old(localCelebs).keys + NewIds(firebaseData.keys, old(localCelebs))
      ensures forall id :: Get(localCelebs, id) == MergedRow(mode, Get(old(localCelebs), id), Get(firebaseData, id), id)
      ensures forall key :: Get(localImages, key) == MergedImageRow(Get(old(localImages), key), key, Get(firebaseData, key.0))
      ensures newCelebs == |NewIds(firebaseData.keys, old(localCelebs))|
      ensures updatedCelebs == if mode == "sync" then |firebaseData.keys| - newCelebs else 0
      ensures |localImages.keys| == |old(localImages).keys| + newImages
    {
      var fb, c0, im0 := firebaseData, localCelebs, localImages;
      KeysMapped(fb);
      assert Distinct(fb.keys);
      var celebs, images;
      celebs, images, newCelebs, newImages, updatedCelebs := MergeTables(mode, c0, im0, fb);
      localCelebs := celebs;
      localImages := images;
      forall id ensures Get(celebs, id) == MergedRow(mode, Get(c0, id), Get(fb, id), id) {
        CelebsMergedAt(mode, c0, fb, fb.keys, id);
      }
      forall key ensures Get(images, key) == MergedImageRow(Get(im0, key), key, Get(fb, key.0)) {
        ImagesMergedAt(im0, fb, fb.keys, key);
      }
    }

    /** `_save_embeddings`: one row per celebrity in sorted id order, the
        Firestore embedding or else 512 zeros, counted as missing. */
    method SaveEmbeddings() returns (arrays: Option<(Arrays.NdArray, seq<string>)>, missingCount: nat)
      requires Valid()
      ensures arrays == ArraysOf(localCelebs, firebaseData)
      ensures missingCount == |Missing(SortedIds(localCelebs), firebaseData)|
    {
      var ids := SortedIds(localCelebs);
      var rows;
      rows, missingCount := EmbeddingRows(ids, firebaseData);
      var matrix := Stacked(rows);
      arrays := if matrix.Some? then Some((matrix.value, ids)) else None;
    }

    /** `save_files`: celebs.csv, images.csv, then the arrays; it fails when
        the arrays cannot be built. */
    method SaveFiles() returns (ok: bool, saved: Saved)
      requires Valid()
      ensures saved == SavedFrom(localCelebs, localImages, firebaseData)
      ensures ok <==> saved.arrays.Some?
    {
      var celebsCsv := CelebsCsv(localCelebs);
      var imagesCsv := ImagesCsv(localImages);
      var arrays, missingCount := SaveEmbeddings();
      saved := Saved(celebsCsv, imagesCsv, arrays);
      ok := arrays.Some?;
    }

    /** `run` as written: the six steps, then the summary, whose last line
        reads `celeb_paths.data_root`, an attribute `CelebPaths` does not
        have. Outside any `try`, that `AttributeError` ends every run whose
        steps all pass, so `run` never returns true and the script always
        exits with status 1. */
    method Run(connected: bool, docs: seq<Doc>, celebsFile: Option<seq<CsvRow>>, imagesFile: Option<seq<CsvRow>>)
      returns (end: RunEnd, saved: Option<Saved>)
      requires Valid()
      modifies this
      ensures Valid() && mode == old(mode)
      ensures saved.Some? <==> connected && docs != []
      ensures end.Raised? <==> saved.Some? && saved.value.arrays.Some? && Validated(saved.value.arrays.value.0)
      ensures end.Raised? ==> end.error == NoDataRoot
      ensures end != Returned(true) && ExitCode(end) == 1
    {
      var ok;
      ok, saved := Steps(connected, docs, celebsFile, imagesFile);
      end := if ok then Raised(NoDataRoot) else Returned(false);
    }

    /** `run` as intended: connect, fetch, load the local files (merge and
        sync mode only), merge, save and validate; the first failing step
        ends it, and `ok` says whether every step passed. */
    method Steps(connected: bool, docs: seq<Doc>, celebsFile: Option<seq<CsvRow>>, imagesFile: Option<seq<CsvRow>>)
      returns (ok: bool, saved: Option<Saved>)
      requires Valid()
      modifies this
      ensures Valid() && mode == old(mode)
      ensures saved.Some? <==> connected && docs != []
      ensures saved.None? ==>
        firebaseData == old(firebaseData) && localCelebs == old(localCelebs) && localImages == old(localImages)
      ensures saved.Some? ==>
        firebaseData == PutAll(old(firebaseData), docs, DocId, Fetched)
        && localCelebs == MergedCelebs(mode, LocalCelebs(mode, old(localCelebs), celebsFile), firebaseData, firebaseData.keys)
        && localImages == MergedImages(LocalImages(mode, old(localImages), imagesFile), firebaseData, firebaseData.keys)
        && saved.value == SavedFrom(localCelebs, localImages, firebaseData)
      ensures ok <==> saved.Some? && saved.value.arrays.Some? && Validated(saved.value.arrays.value.0)
    {
      if !connected {
        return false, None;
      }
      var fetched := FetchFromFirebase(docs);
      if !fetched {
        return false, None;
      }
      if mode == "merge" || mode == "sync" {
        LoadLocalFiles(celebsFile, imagesFile);
      }
      var newCelebs, newImages, updatedCelebs := MergeData();
      var written, files := SaveFiles();
      saved := Some(files);
      if !written {
        return false, saved;
      }
      ok := Validated(files.arrays.value.0);
    }
  }
}
