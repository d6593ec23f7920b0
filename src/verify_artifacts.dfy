/** The artifact check of `scripts/verify_celeb_artifacts.py`: five files
    under `data/celebs`, checked in a fixed order, the first failure ending
    the run. The files are given by their parsed contents. */
module VerifyArtifacts {
  import opened Wrappers
  import opened PyDict
  import opened Json
  import Text
  import PyNum

  // ----- the five files -----

  const FileCount: nat := 5

  /** The keys of the `paths` dict, in insertion order. */
  function KeyOf(k: nat): string
    requires k < FileCount
  {
    if k == 0 then "embed"
    else if k == 1 then "ids"
    else if k == 2 then "expr"
    else if k == 3 then "celebs"
    else "images"
  }

  /** The path of each key. */
  function PathOf(k: nat): string
    requires k < FileCount
  {
    if k == 0 then "data/celebs/embeddings/embed.npy"
    else if k == 1 then "data/celebs/embeddings/ids.npy"
    else if k == 2 then "data/celebs/embeddings/expr_index.json"
    else if k == 3 then "data/celebs/meta/celebs.csv"
    else "data/celebs/meta/images.csv"
  }

  /** What `os.path.exists` and `os.path.getsize` report. */
  datatype FileState = Absent | Present(size: nat)

  /** The state of each of the five files. */
  datatype Files = Files(embed: FileState, ids: FileState, expr: FileState, celebs: FileState, images: FileState)

  /** `ids.npy`: an array of strings, or an object array (pickled). */
  datatype IdsArray = Strings(ids: seq<string>) | Objects(items: seq<string>)

  /** A cell of celebs.csv as pandas reads it: text, or NaN for an empty cell. */
  datatype Cell = Text(s: string) | NA

  datatype Artifacts = Artifacts(
    files: Files,
    embedShape: seq<nat>,             // `embed.shape`
    idsArray: IdsArray,
    celebs: map<string, seq<Cell>>,   // celebs.csv by column
    expr: Json)                       // `json.load` of expr_index.json

  /** How the run ends: a `SystemExit` with a `[FAIL]` message, an exception
      the script does not catch, or success. */
  datatype Outcome =
    | Missing(key: string, path: string)
    | ZeroBytes(key: string, path: string)
    | IdsNeedPickle                    // `np.load(..., allow_pickle=False)` raises ValueError
    | NoRowCount                       // `embed.shape[0]` on a 0-d array raises IndexError
    | LengthMismatch(ids: nat, rows: nat)
    | NoCelebIdColumn
    | NoNameColumn
    | EmptyNames
    | UnknownIds(sample: seq<string>, total: nat)
    | ExprNotObject                    // `expr.items()` raises AttributeError
    | NotIterable(expression: string)       // `for i in idxs` raises TypeError
    | NotAnInt(expression: string, idx: Json) // `int(i)` raises
    | OutOfRange(expression: string, idx: Json, n: nat)
    | NoWidth(n: nat)                  // "[OK]" printed, then `embed.shape[1]` raises IndexError
    | Passed(n: nat, d: nat)

  /** The file at position `k` of the `paths` dict. */
  function FileAt(files: Files, k: nat): FileState
    requires k < FileCount
  {
    if k == 0 then files.embed
    else if k == 1 then files.ids
    else if k == 2 then files.expr
    else if k == 3 then files.celebs
    else files.images
  }

  predicate FileOk(files: Files, k: nat)
    requires k < FileCount
  {
    FileAt(files, k).Present? && FileAt(files, k).size > 0
  }

  /** Every file from position `lo` up to `hi` is there and not empty. */
  predicate OkBetween(files: Files, lo: nat, hi: nat)
    requires hi <= FileCount
  {
    forall i :: lo <= i < hi ==> FileOk(files, i)
  }

  /** The first failure of the file loop from position `k` on. */
  function FileFault(files: Files, k: nat): (r: Option<Outcome>)
    requires k <= FileCount
    ensures r.None? <==> OkBetween(files, k, FileCount)
    decreases FileCount - k
  {
    if k == FileCount then None
    else if !FileOk(files, k) then
      Some(if FileAt(files, k).Absent? then Missing(KeyOf(k), PathOf(k)) else ZeroBytes(KeyOf(k), PathOf(k)))
    else FileFault(files, k + 1)
  }

  /** A file failure names the first position whose file is absent or empty,
      with its key and its path. */
  lemma {:induction false} FileFaultFirst(files: Files, k: nat)
    requires k <= FileCount && FileFault(files, k).Some?
    ensures exists j :: (k <= j < FileCount && OkBetween(files, k, j) && !FileOk(files, j)
      && FileFault(files, k).value
         == (if FileAt(files, j).Absent? then Missing(KeyOf(j), PathOf(j)) else ZeroBytes(KeyOf(j), PathOf(j))))
    decreases FileCount - k
  {
    if FileOk(files, k) {
      FileFaultFirst(files, k + 1);
      var j :| k + 1 <= j < FileCount && OkBetween(files, k + 1, j) && !FileOk(files, j)
        && FileFault(files, k + 1).value
           == (if FileAt(files, j).Absent? then Missing(KeyOf(j), PathOf(j)) else ZeroBytes(KeyOf(j), PathOf(j)));
      assert OkBetween(files, k, j);
    } else {
      assert OkBetween(files, k, k);
    }
  }

  // ----- celebs.csv -----

  /** `astype(str)`: NaN becomes the text "nan". */
  function AsStr(c: Cell): string {
    match c
    case Text(s) => s
    case NA => "nan"
  }

  /** The blank-name test as the script writes it:
      `celebs["name"].astype(str).str.strip() == ""`. */
  predicate NameBlankAsWritten(c: Cell) {
    Text.Strip(AsStr(c)) == ""
  }

  /** The blank-name test the message promises: an empty cell is blank too. */
  predicate NameBlank(c: Cell) {
    c.NA? || Text.Strip(c.s) == ""
  }

  /** The two tests differ exactly on empty cells. */
  lemma NameBlankDiffers(s: string)
    ensures NameBlank(Text(s)) == NameBlankAsWritten(Text(s))
    ensures NameBlank(NA) && !NameBlankAsWritten(NA)
  {
    var nan := "nan";
    assert !Text.IsSpace(nan[0]) && !Text.IsSpace(nan[2]);
    assert Text.LStrip(nan) == nan;
  }

  /** `(test(col)).any()`. */
  function AnyBlank(col: seq<Cell>, blank: Cell -> bool): (r: bool)
    ensures r <==> exists c <- col :: blank(c)
  {
    if col == [] then false else blank(col[0]) || AnyBlank(col[1..], blank)
  }

  /** `set(celebs["celeb_id"].astype(str).tolist())`. */
  function IdSet(col: seq<Cell>): set<string> {
    set c | c in col :: AsStr(c)
  }

  /** `[x for x in ids if x not in known]`. */
  function NotIn(ids: seq<string>, known: set<string>): (r: seq<string>)
    ensures |r| <= |ids|
    ensures forall x :: x in r <==> x in ids && x !in known
  {
    if ids == [] then []
    else (if ids[0] in known then [] else [ids[0]]) + NotIn(ids[1..], known)
  }

  /** `missing[:10]`. */
  function Sample(missing: seq<string>): (r: seq<string>)
    ensures |r| == if |missing| < 10 then |missing| else 10
    ensures r == missing[..|r|]
  {
    missing[..if |missing| < 10 then |missing| else 10]
  }

  // ----- expr_index.json -----

  /** `dict.items()` of a decoded JSON object, in key order. */
  function ItemsOf(obj: Dict<string, Json>): (r: seq<(string, Json)>)
    ensures PyDict.Valid(obj) ==> |r| == |obj.keys|
    ensures forall it <- r :: it.0 in obj.vals && obj.vals[it.0] == it.1
  {
    ItemsFrom(obj.keys, obj.vals)
  }

  function ItemsFrom(keys: seq<string>, vals: map<string, Json>): (r: seq<(string, Json)>)
    ensures (forall k <- keys :: k in vals) ==> |r| == |keys|
    ensures forall it <- r :: it.0 in vals && vals[it.0] == it.1
  {
    if keys == [] then []
    else (if keys[0] in vals then [(keys[0], vals[keys[0]])] else []) + ItemsFrom(keys[1..], vals)
  }

  /** What `for i in idxs` yields: the items of a list, the keys of an
      object, the characters of a string; other values are not iterable. */
  function Members(j: Json): (r: Option<seq<Json>>)
    ensures j.JList? ==> r == Some(j.items)
    ensures (j.JNull? || j.JBool? || j.JInt? || j.JFloat?) ==> r.None?
  {
    match j
    case JList(items) => Some(items)
    case JObj(obj) => Some(seq(|obj.keys|, i requires 0 <= i < |obj.keys| => JStr(obj.keys[i])))
    case JStr(s) => Some(seq(|s|, i requires 0 <= i < |s| => JStr([s[i]])))
    case _ => None
  }

  /** `int(i)`: `None` where Python raises. */
  function IntOf(j: Json): (r: Option<int>)
    ensures j.JInt? ==> r == Some(j.i)
    ensures (j.JNull? || j.JList? || j.JObj?) ==> r.None?
  {
    match j
    case JInt(i) => Some(i)
    case JFloat(f) => Some(PyNum.Trunc(f))
    case JBool(b) => Some(if b then 1 else 0)
    case JStr(s) => PyNum.IntOfString(s)
    case _ => None
  }

  predicate IndexOk(j: Json, n: nat) {
    IntOf(j).Some? && 0 <= IntOf(j).value < n
  }

  /** The first failure of the inner loop over one expression's indices. */
  function IndexFault(expression: string, idxs: seq<Json>, n: nat): (r: Option<Outcome>)
    ensures r.None? <==> forall v <- idxs :: IndexOk(v, n)
    ensures r.Some? ==> exists v <- idxs :: !IndexOk(v, n) && r.value == BadIndex(expression, v, n)
  {
    if idxs == [] then None
    else if !IndexOk(idxs[0], n) then Some(BadIndex(expression, idxs[0], n))
    else IndexFault(expression, idxs[1..], n)
  }

  /** The failure a bad index causes: `int` raises, or the range test fails. */
  function BadIndex(expression: string, v: Json, n: nat): Outcome {
    if IntOf(v).None? then NotAnInt(expression, v) else OutOfRange(expression, v, n)
  }

  predicate LabelOk(it: (string, Json), n: nat) {
    Members(it.1).Some? && forall v <- Members(it.1).value :: IndexOk(v, n)
  }

  /** The first failure of the outer loop over the labels. */
  function LabelFault(items: seq<(string, Json)>, n: nat): (r: Option<Outcome>)
    ensures r.None? <==> forall it <- items :: LabelOk(it, n)
  {
    if items == [] then None
    else
      var it := items[0];
      assert items == [it] + items[1..];
      match Members(it.1)
      case None => assert !LabelOk(it, n); Some(NotIterable(it.0))
      case Some(idxs) =>
        var fault := IndexFault(it.0, idxs, n);
        if fault.Some? then assert !LabelOk(it, n); fault else LabelFault(items[1..], n)
  }

  // ----- the whole run -----

  /** The outcome of the run with a given blank-name test: the file loop of
      lines 17-21 first. */
  function CheckedWith(a: Artifacts, blank: Cell -> bool): (o: Outcome)
    ensures o.Passed? ==>
      && OkBetween(a.files, 0, FileCount) && a.idsArray.Strings? && o.n == |a.idsArray.ids|
      && "name" in a.celebs && !AnyBlank(a.celebs["name"], blank) && a.expr.JObj?
  {
    match FileFault(a.files, 0)
    case Some(o) => o
    case None =>
      if a.idsArray.Strings? && |a.embedShape| > 0 && a.embedShape[0] == |a.idsArray.ids| then
        var t := Tabled(a, blank);
        assert Loaded(a, blank) == t;
        if t.Passed? then TabledPassedIff(a, blank, t.n, t.d); IndexedPassedIff(a, t.n, t.d); t else t
      else Loaded(a, blank)
  }

  /** Lines 23-27: the two arrays are loaded and their lengths compared. */
  function Loaded(a: Artifacts, blank: Cell -> bool): Outcome {
    if a.idsArray.Objects? then IdsNeedPickle
    else if |a.embedShape| == 0 then NoRowCount
    else if a.embedShape[0] != |a.idsArray.ids| then LengthMismatch(|a.idsArray.ids|, a.embedShape[0])
    else Tabled(a, blank)
  }

  /** Lines 29-42: the columns, the names and the ids of celebs.csv. */
  function Tabled(a: Artifacts, blank: Cell -> bool): Outcome
    requires a.idsArray.Strings? && |a.embedShape| > 0
  {
    if "celeb_id" !in a.celebs then NoCelebIdColumn
    else if "name" !in a.celebs then NoNameColumn
    else if AnyBlank(a.celebs["name"], blank) then EmptyNames
    else
      var missing := NotIn(a.idsArray.ids, IdSet(a.celebs["celeb_id"]));
      if missing != [] then UnknownIds(Sample(missing), |missing|)
      else Indexed(a)
  }

  /** Lines 44-52: the expression index, then the report of N and D. */
  function Indexed(a: Artifacts): Outcome
    requires |a.embedShape| > 0
  {
    if !a.expr.JObj? then ExprNotObject
    else match LabelFault(ItemsOf(a.expr.obj), a.embedShape[0])
      case Some(o) => o
      case None => if |a.embedShape| < 2 then NoWidth(a.embedShape[0]) else Passed(a.embedShape[0], a.embedShape[1])
  }

  /** On a name column without empty cells the two name tests agree, and so
      do the two runs. */
  lemma BlankTestsAgree(a: Artifacts)
    ensures ("name" in a.celebs ==> NA !in a.celebs["name"]) ==>
      CheckedWith(a, NameBlankAsWritten) == CheckedWith(a, NameBlank)
  {
    if "name" in a.celebs && NA !in a.celebs["name"] {
      var col := a.celebs["name"];
      forall c <- col
        ensures NameBlank(c) == NameBlankAsWritten(c)
      {
        NameBlankDiffers(c.s);
      }
      assert AnyBlank(col, NameBlankAsWritten) == AnyBlank(col, NameBlank);
    }
  }

  /** The run as the script is written; it differs from the intended run
      only on a name column with an empty cell. */
  function CheckedAsWritten(a: Artifacts): (o: Outcome)
    ensures ("name" in a.celebs ==> NA !in a.celebs["name"]) ==> o == Checked(a)
  {
    BlankTestsAgree(a);
    CheckedWith(a, NameBlankAsWritten)
  }

  /** The run with empty name cells reported as empty names: a run that
      passes has a name in every row. */
  function Checked(a: Artifacts): (o: Outcome)
    ensures o.Passed? ==> "name" in a.celebs && forall c <- a.celebs["name"] :: c.Text? && Text.Strip(c.s) != ""
  {
    CheckedWith(a, NameBlank)
  }

  const Fail := "[FAIL] "

  /** The `SystemExit` message of the failures whose text holds no Python repr. */
  function FailMessage(o: Outcome): (m: string)
    requires o.Missing? || o.ZeroBytes? || o.LengthMismatch? || o.NoCelebIdColumn? || o.NoNameColumn? || o.EmptyNames?
    ensures |m| > |Fail| && m[..|Fail|] == Fail
  {
    Fail + match o
      case Missing(k, p) => "missing: " + k + " -> " + p
      case ZeroBytes(k, p) => "0-byte: " + k + " -> " + p
      case LengthMismatch(i, r) => "len(ids) != embed.shape[0] : " + Text.NatToString(i) + " vs " + Text.NatToString(r)
      case NoCelebIdColumn => "celebs.csv must contain 'celeb_id' column"
      case NoNameColumn => "celebs.csv must contain 'name' column"
      case EmptyNames => "celebs.csv has empty 'name' values"
  }

  /** The expression stage succeeds exactly when every index of every
      expression is an integer in [0, N), and the matrix has a width. */
  lemma IndexedPassedIff(a: Artifacts, n: nat, d: nat)
    requires |a.embedShape| > 0
    ensures Indexed(a) == Passed(n, d) <==>
      && a.expr.JObj? && (forall it <- ItemsOf(a.expr.obj) :: LabelOk(it, a.embedShape[0]))
      && |a.embedShape| >= 2 && n == a.embedShape[0] && d == a.embedShape[1]
  {
    if a.expr.JObj? {
      LabelFaultSound(ItemsOf(a.expr.obj), a.embedShape[0]);
    }
  }

  /** The table stage succeeds exactly when both columns are there, no name
      is blank, every id is a known celeb_id, and the expression stage succeeds. */
  lemma TabledPassedIff(a: Artifacts, blank: Cell -> bool, n: nat, d: nat)
    requires a.idsArray.Strings? && |a.embedShape| > 0
    ensures Tabled(a, blank) == Passed(n, d) <==>
      && "celeb_id" in a.celebs && "name" in a.celebs
      && (forall c <- a.celebs["name"] :: !blank(c))
      && (forall x <- a.idsArray.ids :: x in IdSet(a.celebs["celeb_id"]))
      && Indexed(a) == Passed(n, d)
  {
    if "celeb_id" in a.celebs {
      var missing := NotIn(a.idsArray.ids, IdSet(a.celebs["celeb_id"]));
      if missing != [] {
        assert missing[0] in missing;
      }
    }
  }

  /** The run succeeds exactly when every check holds, and then reports the
      row count and the width of the embedding matrix. */
  lemma PassedIff(a: Artifacts, n: nat, d: nat)
    ensures Checked(a) == Passed(n, d) <==>
      && OkBetween(a.files, 0, FileCount)
      && a.idsArray.Strings?
      && |a.embedShape| >= 2 && n == a.embedShape[0] && d == a.embedShape[1] && n == |a.idsArray.ids|
      && "celeb_id" in a.celebs && "name" in a.celebs
      && (forall c <- a.celebs["name"] :: !NameBlank(c))
      && (forall x <- a.idsArray.ids :: x in IdSet(a.celebs["celeb_id"]))
      && a.expr.JObj?
      && (forall it <- ItemsOf(a.expr.obj) :: LabelOk(it, n))
  {
    if OkBetween(a.files, 0, FileCount) && a.idsArray.Strings? && |a.embedShape| > 0 {
      IndexedPassedIff(a, n, d);
      if a.embedShape[0] == |a.idsArray.ids| {
        TabledPassedIff(a, NameBlank, n, d);
      }
    }
  }

  /** The file checks come first: with a file missing or empty, nothing
      else is read. */
  lemma FilesFirst(a: Artifacts, k: nat)
    requires k < FileCount && !FileOk(a.files, k)
    ensures Checked(a).Missing? || Checked(a).ZeroBytes?
    ensures OkBetween(a.files, 0, k) ==>
      Checked(a) == (if FileAt(a.files, k).Absent? then Missing(KeyOf(k), PathOf(k)) else ZeroBytes(KeyOf(k), PathOf(k)))
  {
    FileFaultFirst(a.files, 0);
  }

  /** An object array in ids.npy stops every run whose files are all there. */
  lemma PickledIdsCrash(a: Artifacts)
    requires OkBetween(a.files, 0, FileCount)
    requires a.idsArray.Objects?
    ensures Checked(a) == IdsNeedPickle && CheckedAsWritten(a) == IdsNeedPickle
  {
  }

  /** A length failure reports the two lengths, and they differ. */
  lemma LengthMismatchJustified(a: Artifacts)
    requires Checked(a).LengthMismatch?
    ensures a.idsArray.Strings? && |a.embedShape| > 0
    ensures Checked(a).ids == |a.idsArray.ids| && Checked(a).rows == a.embedShape[0]
    ensures Checked(a).ids != Checked(a).rows
  {
    if FileFault(a.files, 0).None? && a.idsArray.Strings? && |a.embedShape| > 0 && a.embedShape[0] == |a.idsArray.ids| {
      TabledFailures(a, NameBlank);
    }
  }

  /** The table stage and the expression stage never report the outcome of
      an earlier stage. */
  lemma TabledFailures(a: Artifacts, blank: Cell -> bool)
    requires a.idsArray.Strings? && |a.embedShape| > 0
    ensures !Tabled(a, blank).LengthMismatch? && !Tabled(a, blank).Missing? && !Tabled(a, blank).ZeroBytes?
    ensures Tabled(a, blank).OutOfRange? ==> Tabled(a, blank) == Indexed(a)
    ensures Tabled(a, blank).NotAnInt? ==> Tabled(a, blank) == Indexed(a)
  {
    if a.expr.JObj? {
      LabelFaultSound(ItemsOf(a.expr.obj), a.embedShape[0]);
    }
  }

  /** An unknown-id failure reports the first ten ids missing from the
      celeb_id column and how many are missing. */
  lemma UnknownIdsJustified(a: Artifacts)
    requires Checked(a).UnknownIds?
    ensures a.idsArray.Strings? && "celeb_id" in a.celebs
    ensures var missing := NotIn(a.idsArray.ids, IdSet(a.celebs["celeb_id"]));
      && Checked(a).total == |missing| > 0 && Checked(a).sample == Sample(missing)
      && forall x <- Checked(a).sample :: x in a.idsArray.ids && x !in IdSet(a.celebs["celeb_id"])
  {
    if FileFault(a.files, 0).None? && a.idsArray.Strings? && |a.embedShape| > 0 && a.expr.JObj? {
      LabelFaultSound(ItemsOf(a.expr.obj), a.embedShape[0]);
    }
    var missing := NotIn(a.idsArray.ids, IdSet(a.celebs["celeb_id"]));
    forall x <- Checked(a).sample ensures x in a.idsArray.ids && x !in IdSet(a.celebs["celeb_id"]) {
      assert x in missing;
    }
  }

  /** An index failure names a value `int` cannot read, or one outside [0, N). */
  lemma IndexFailureJustified(a: Artifacts)
    ensures Checked(a).NotAnInt? ==> IntOf(Checked(a).idx).None?
    ensures Checked(a).OutOfRange? ==>
      && |a.embedShape| > 0 && IntOf(Checked(a).idx).Some? && Checked(a).n == a.embedShape[0]
      && !(0 <= IntOf(Checked(a).idx).value < Checked(a).n)
  {
    if FileFault(a.files, 0).None? && a.idsArray.Strings? && |a.embedShape| > 0 && a.expr.JObj? {
      LabelFaultSound(ItemsOf(a.expr.obj), a.embedShape[0]);
    }
  }

  /** A failure of the expression loop is a bad index of some expression. */
  lemma {:induction false} LabelFaultSound(items: seq<(string, Json)>, n: nat)
    ensures LabelFault(items, n).Some? ==> match LabelFault(items, n).value
      case NotIterable(_) => true
      case NotAnInt(_, v) => IntOf(v).None?
      case OutOfRange(_, v, m) => m == n && IntOf(v).Some? && !(0 <= IntOf(v).value < n)
      case _ => false
  {
    if items != [] && Members(items[0].1).Some? {
      var fault := IndexFault(items[0].0, Members(items[0].1).value, n);
      if fault.None? {
        LabelFaultSound(items[1..], n);
      }
    }
  }

  /** The blank-name test as written lets an empty name cell through: when
      the run as written succeeds on a table with an empty name cell, the
      corrected run reports empty names. */
  lemma EmptyNameSlipsThrough(a: Artifacts, n: nat, d: nat)
    requires CheckedAsWritten(a) == Passed(n, d)
    requires "name" in a.celebs && NA in a.celebs["name"]
    ensures Checked(a) == EmptyNames
  {
    NameBlankDiffers("");
    assert FileFault(a.files, 0).None?;
    assert a.idsArray.Strings? && |a.embedShape| > 0 && a.embedShape[0] == |a.idsArray.ids|;
    assert "celeb_id" in a.celebs;
    assert AnyBlank(a.celebs["name"], NameBlank);
  }

  /** One set of artifacts the script as written accepts although a name
      cell is empty. */
  lemma EmptyNameWitness()
    ensures var a := Artifacts(
        Files(Present(1), Present(1), Present(1), Present(1), Present(1)),
        [1, 512], Strings(["x"]), map["celeb_id" := [Text("x")], "name" := [NA]], JObj(Dict([], map[])));
      CheckedAsWritten(a) == Passed(1, 512) && Checked(a) == EmptyNames
  {
    var files := Files(Present(1), Present(1), Present(1), Present(1), Present(1));
    var celebs := map["celeb_id" := [Text("x")], "name" := [NA]];
    var a := Artifacts(files, [1, 512], Strings(["x"]), celebs, JObj(Dict([], map[])));
    FilesPresent(files);
    assert celebs["celeb_id"] == [Text("x")] && celebs["name"] == [NA];
    KnownId("x");
    MissingNameNotBlank();
    PassesAsWritten(a, ["x"], 512);
    EmptyNameSlipsThrough(a, 1, 512);
  }

  /** The test as written does not find a blank among one missing name. */
  lemma MissingNameNotBlank()
    ensures !AnyBlank([NA], NameBlankAsWritten)
  {
    NameBlankDiffers("");
  }

  lemma FilesPresent(files: Files)
    requires files.embed.Present? && files.ids.Present? && files.expr.Present?
    requires files.celebs.Present? && files.images.Present?
    requires files.embed.size > 0 && files.ids.size > 0 && files.expr.size > 0
    requires files.celebs.size > 0 && files.images.size > 0
    ensures OkBetween(files, 0, FileCount)
  {
    forall i | 0 <= i < FileCount ensures FileOk(files, i) {
    }
  }

  /** The run as written passes once the files, the lengths, the names and
      the ids are right and the expression index is empty. */
  lemma PassesAsWritten(a: Artifacts, ids: seq<string>, d: nat)
    requires OkBetween(a.files, 0, FileCount)
    requires a.idsArray == Strings(ids) && a.embedShape == [|ids|, d]
    requires "celeb_id" in a.celebs && "name" in a.celebs
    requires !AnyBlank(a.celebs["name"], NameBlankAsWritten)
    requires NotIn(ids, IdSet(a.celebs["celeb_id"])) == []
    requires a.expr == JObj(Dict([], map[]))
    ensures CheckedAsWritten(a) == Passed(|ids|, d)
  {
    TabledPasses(a, NameBlankAsWritten, ids, d);
    assert CheckedWith(a, NameBlankAsWritten) == Tabled(a, NameBlankAsWritten);
  }

  /** The table and index stages pass on such artifacts, for either name test. */
  lemma TabledPasses(a: Artifacts, blank: Cell -> bool, ids: seq<string>, d: nat)
    requires a.idsArray == Strings(ids) && a.embedShape == [|ids|, d]
    requires "celeb_id" in a.celebs && "name" in a.celebs
    requires !AnyBlank(a.celebs["name"], blank)
    requires NotIn(ids, IdSet(a.celebs["celeb_id"])) == []
    requires a.expr == JObj(Dict([], map[]))
    ensures Tabled(a, blank) == Passed(|ids|, d)
  {
    assert ItemsOf(a.expr.obj) == [];
    assert Indexed(a) == Passed(|ids|, d);
  }

  lemma KnownId(x: string)
    ensures NotIn([x], IdSet([Text(x)])) == []
  {
    var col: seq<Cell> := [Text(x)];
    assert col[0] in col;
  }

  // ----- the script -----

  /** The script, top to bottom: the file loop, the loads, the column,
      name and id checks, and the loops over the expression index. `blank`
      is the name test: `NameBlankAsWritten` is the script as written, so
      `Verify(a, NameBlankAsWritten)` is `CheckedAsWritten(a)`, and
      `NameBlank` the intended test, giving `Checked(a)`. */
  method Verify(a: Artifacts, blank: Cell -> bool) returns (o: Outcome)
    ensures o == CheckedWith(a, blank)
    ensures blank == NameBlankAsWritten ==> o == CheckedAsWritten(a)
    ensures blank == NameBlank ==> o == Checked(a)
  {
    var k := 0;
    while k < FileCount
      invariant 0 <= k <= FileCount
      invariant FileFault(a.files, 0) == FileFault(a.files, k)
    {
      var key, path := KeyOf(k), PathOf(k);
      var state := FileAt(a.files, k);
      if state.Absent? {
        return Missing(key, path);
      }
      if state.size <= 0 {
        return ZeroBytes(key, path);
      }
      k := k + 1;
    }
    if a.idsArray.Objects? {
      return IdsNeedPickle;
    }
    var ids := a.idsArray.ids;
    if |a.embedShape| == 0 {
      return NoRowCount;
    }
    if a.embedShape[0] != |ids| {
      return LengthMismatch(|ids|, a.embedShape[0]);
    }
    if "celeb_id" !in a.celebs {
      return NoCelebIdColumn;
    }
    if "name" !in a.celebs {
      return NoNameColumn;
    }
    if AnyBlank(a.celebs["name"], blank) {
      return EmptyNames;
    }
    var missing := NotIn(ids, IdSet(a.celebs["celeb_id"]));
    if missing != [] {
      return UnknownIds(Sample(missing), |missing|);
    }
    if !a.expr.JObj? {
      return ExprNotObject;
    }
    var n := a.embedShape[0];
    var fault := ExprLoop(ItemsOf(a.expr.obj), n);
    if fault.Some? {
      return fault.value;
    }
    if |a.embedShape| < 2 {
      return NoWidth(n);
    }
    return Passed(n, a.embedShape[1]);
  }

  /** The nested loops of lines 46-49, stopping at the first bad index. */
  method ExprLoop(items: seq<(string, Json)>, n: nat) returns (fault: Option<Outcome>)
    ensures fault == LabelFault(items, n)
  {
    var li := 0;
    while li < |items|
      invariant 0 <= li <= |items|
      invariant LabelFault(items, n) == LabelFault(items[li..], n)
    {
      var expression := items[li].0;
      var members := Members(items[li].1);
      if members.None? {
        return Some(NotIterable(expression));
      }
      var idxs := members.value;
      var j := 0;
      while j < |idxs|
        invariant 0 <= j <= |idxs|
        invariant IndexFault(expression, idxs, n) == IndexFault(expression, idxs[j..], n)
      {
        var v := IntOf(idxs[j]);
        if v.None? {
          return Some(NotAnInt(expression, idxs[j]));
        }
        if !(0 <= v.value < n) {
          return Some(OutOfRange(expression, idxs[j], n));
        }
        assert idxs[j..][1..] == idxs[j + 1..];
        j := j + 1;
      }
      assert items[li..][1..] == items[li + 1..];
      li := li + 1;
    }
    return None;
  }
}
