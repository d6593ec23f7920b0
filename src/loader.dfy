/** The in-memory celebrity catalog (backend/app/infra/celeb_store/loader.py). */
module Loader {
  import opened Wrappers
  import opened Arrays
  import PyNum

  /** A `csv.DictReader` row: column name to cell text. */
  type Row = map<string, string>

  /** `CelebInfo`. */
  datatype CelebInfo = CelebInfo(celebId: string, name: string, gender: Option<string>,
                                 birthYear: Option<int>, agency: Option<string>)

  /** The `ValueError` of `int(...)` on a `birth_year` cell that is not an integer. */
  datatype LoadError = BadBirthYear(text: string)

  /** `row.get(key)`. */
  function Cell(row: Row, key: string): Option<string> {
    if key in row then Some(row[key]) else None
  }

  /** `CelebInfo.from_csv_row`. */
  function FromCsvRow(row: Row): (r: Result<CelebInfo, LoadError>)
    ensures r.Ok? ==> (r.value.celebId == RowId(row)
      && r.value.name == Cell(row, "name").GetOr("")
      && r.value.gender == Cell(row, "gender") && r.value.agency == Cell(row, "agency"))
    ensures r.Ok? ==> (r.value.birthYear.None? <==> Cell(row, "birth_year").GetOr("") == "")
    ensures r.Ok? && r.value.birthYear.Some? ==> PyNum.IntOfString(row["birth_year"]) == r.value.birthYear
    ensures r.Err? <==> (Cell(row, "birth_year").GetOr("") != "" && PyNum.IntOfString(row["birth_year"]).None?)
  {
    var year := Cell(row, "birth_year").GetOr("");
    var info := CelebInfo(Cell(row, "celeb_id").GetOr(""), Cell(row, "name").GetOr(""),
                          Cell(row, "gender"), None, Cell(row, "agency"));
    if year == "" then Ok(info)
    else match PyNum.IntOfString(year)
      case None => Err(BadBirthYear(year))
      case Some(y) => Ok(info.(birthYear := Some(y)))
  }

  /** The `_load_celebs_meta` loop from a table `m`: each row is stored under
      its id, and the first row that does not parse stops the loop, keeping the
      rows stored before it. */
  function AddRows(m: map<string, CelebInfo>, rows: seq<Row>): (map<string, CelebInfo>, Option<LoadError>)
    decreases |rows|
  {
    if rows == [] then (m, None)
    else match FromCsvRow(rows[0])
      case Err(e) => (m, Some(e))
      case Ok(c) => AddRows(m[c.celebId := c], rows[1..])
  }

  predicate AllParse(rows: seq<Row>) {
    forall i :: 0 <= i < |rows| ==> FromCsvRow(rows[i]).Ok?
  }

  /** The id a row is stored under. */
  function RowId(row: Row): string {
    Cell(row, "celeb_id").GetOr("")
  }

  lemma {:induction false} AddRowsOk(m: map<string, CelebInfo>, rows: seq<Row>)
    requires AllParse(rows)
    ensures AddRows(m, rows).1.None?
    decreases |rows|
  {
    if rows != [] {
      var c := FromCsvRow(rows[0]).value;
      AllParseTail(rows);
      AddRowsOk(m[c.celebId := c], rows[1..]);
    }
  }

  lemma AllParseTail(rows: seq<Row>)
    requires AllParse(rows) && rows != []
    ensures AllParse(rows[1..]) && FromCsvRow(rows[0]).Ok?
  {
    forall i | 0 <= i < |rows| - 1 ensures FromCsvRow(rows[1..][i]).Ok? {
      assert rows[1..][i] == rows[i + 1];
    }
  }

  /** With every row parsing, the table holds the old ids and every row's id. */
  lemma {:induction false} AddRowsKeys(m: map<string, CelebInfo>, rows: seq<Row>, c: string)
    requires AllParse(rows)
    ensures c in AddRows(m, rows).0 <==> (c in m || exists i :: 0 <= i < |rows| && RowId(rows[i]) == c)
    decreases |rows|
  {
    if rows != [] {
      var first := FromCsvRow(rows[0]).value;
      AllParseTail(rows);
      var rest := rows[1..];
      AddRowsKeys(m[first.celebId := first], rest, c);
      if exists i :: 0 <= i < |rest| && RowId(rest[i]) == c {
        var i :| 0 <= i < |rest| && RowId(rest[i]) == c;
        assert rest[i] == rows[i + 1];
      }
      if exists i :: 0 <= i < |rows| && RowId(rows[i]) == c {
        var i :| 0 <= i < |rows| && RowId(rows[i]) == c;
        if i > 0 { assert rest[i - 1] == rows[i]; }
      }
    }
  }

  /** An id maps to the last row that carries it. */
  lemma {:induction false} AddRowsLastWins(m: map<string, CelebInfo>, rows: seq<Row>, c: string, j: nat)
    requires AllParse(rows)
    requires j < |rows| && RowId(rows[j]) == c
    requires forall l :: j < l < |rows| ==> RowId(rows[l]) != c
    ensures c in AddRows(m, rows).0 && AddRows(m, rows).0[c] == FromCsvRow(rows[j]).value
    decreases |rows|
  {
    var first := FromCsvRow(rows[0]).value;
    AllParseTail(rows);
    var rest := rows[1..];
    var m' := m[first.celebId := first];
    if j > 0 {
      assert rest[j - 1] == rows[j];
      forall l | j - 1 < l < |rest| ensures RowId(rest[l]) != c {
        assert rest[l] == rows[l + 1];
      }
      AddRowsLastWins(m', rest, c, j - 1);
    } else {
      forall l | 0 <= l < |rest| ensures RowId(rest[l]) != c {
        assert rest[l] == rows[l + 1];
      }
      AddRowsUntouched(m', rest, c);
    }
  }

  /** An id no row carries keeps its old entry. */
  lemma {:induction false} AddRowsUntouched(m: map<string, CelebInfo>, rows: seq<Row>, c: string)
    requires AllParse(rows) && c in m
    requires forall l :: 0 <= l < |rows| ==> RowId(rows[l]) != c
    ensures c in AddRows(m, rows).0 && AddRows(m, rows).0[c] == m[c]
    decreases |rows|
  {
    if rows != [] {
      var first := FromCsvRow(rows[0]).value;
      AllParseTail(rows);
      var rest := rows[1..];
      forall l | 0 <= l < |rest| ensures RowId(rest[l]) != c {
        assert rest[l] == rows[l + 1];
      }
      AddRowsUntouched(m[first.celebId := first], rest, c);
    }
  }

  /** The `_id_to_index` loop over `ids`: `str(id)` to its position, a later
      position overwriting an earlier one. */
  function IdIndex(ids: seq<string>): map<string, nat>
  {
    if ids == [] then map[]
    else IdIndex(ids[..|ids| - 1])[ids[|ids| - 1] := |ids| - 1]
  }

  /** Every id is mapped, to the last position where it occurs. */
  lemma {:induction false} IdIndexLast(ids: seq<string>, c: string)
    ensures c in IdIndex(ids) <==> c in ids
    ensures c in ids ==> (var j := IdIndex(ids)[c];
      j < |ids| && ids[j] == c && forall l :: j < l < |ids| ==> ids[l] != c)
  {
    if ids != [] {
      var n := |ids| - 1;
      IdIndexLast(ids[..n], c);
      assert ids == ids[..n] + [ids[n]];
      if c in ids && ids[n] != c {
        assert c in ids[..n];
      }
    }
  }

  /** What reading one `.npy` file gave: no file, a failing `np.load`, or the
      array. */
  datatype FileRead<T> = Absent | Unreadable | Read(value: T)

  /** `_embeddings` after `_load_embeddings`: kept when the file is absent,
      cleared when it cannot be read. */
  function EmbeddingsAfter(before: Option<NdArray>, embFile: FileRead<NdArray>): Option<NdArray> {
    match embFile
    case Absent => before
    case Unreadable => None
    case Read(a) => Some(a)
  }

  /** `_ids` after `_load_embeddings`: the ids file is read only after the
      embeddings were. */
  function IdsAfter(before: Option<seq<string>>, embFile: FileRead<NdArray>, idsFile: FileRead<seq<string>>): Option<seq<string>> {
    if !embFile.Read? then before
    else match idsFile
      case Absent => before
      case Unreadable => None
      case Read(xs) => Some(xs)
  }

  /** `_id_to_index` after `_load_embeddings`. */
  function IndexAfter(before: map<string, nat>, embFile: FileRead<NdArray>, idsFile: FileRead<seq<string>>): map<string, nat> {
    if embFile.Read? && idsFile.Read? then before + IdIndex(idsFile.value) else before
  }

  /** `CelebDataLoader`, created once and loaded once. */
  class CelebDataLoader {
    var celebs: map<string, CelebInfo>
    var embeddings: Option<NdArray>
    var ids: Option<seq<string>>
    var idToIndex: map<string, nat>
    var loaded: bool

    constructor ()
      ensures celebs == map[] && embeddings == None && ids == None
      ensures idToIndex == map[] && !loaded
    {
      celebs := map[];
      embeddings := None;
      ids := None;
      idToIndex := map[];
      loaded := false;
    }

    /** `load()`, with the CSV rows (`None` when the file is missing) and the
        two array files as parameters. A row that does not parse raises out of
        `load`, leaving the rows before it stored and the loader not loaded. */
    method Load(csv: Option<seq<Row>>, embFile: FileRead<NdArray>, idsFile: FileRead<seq<string>>)
      returns (err: Option<LoadError>)
      modifies this
      ensures old(loaded) ==> err == None && unchanged(this)
      ensures !old(loaded) ==>
        var (m, e) := AddRows(old(celebs), csv.GetOr([]));
        celebs == m && err == e
        && (e.Some? ==> !loaded && embeddings == old(embeddings) && ids == old(ids) && idToIndex == old(idToIndex))
        && (e.None? ==> (loaded
          && embeddings == EmbeddingsAfter(old(embeddings), embFile)
          && ids == IdsAfter(old(ids), embFile, idsFile)
          && idToIndex == IndexAfter(old(idToIndex), embFile, idsFile)))
    {
      if loaded {
        return None;
      }
      err := LoadCelebsMeta(csv);
      if err.Some? {
        return;
      }
      LoadEmbeddings(embFile, idsFile);
      loaded := true;
    }

    method LoadCelebsMeta(csv: Option<seq<Row>>) returns (err: Option<LoadError>)
      modifies this`celebs
      ensures (celebs, err) == AddRows(old(celebs), csv.GetOr([]))
    {
      err := None;
      if csv.None? {
        return;
      }
      var rows := csv.value;
      var i := 0;
      while i < |rows|
        invariant 0 <= i <= |rows|
        invariant AddRows(old(celebs), rows) == AddRows(celebs, rows[i..])
      {
        assert rows[i..][0] == rows[i] && rows[i..][1..] == rows[i + 1..];
        var r := FromCsvRow(rows[i]);
        if r.Err? {
          return Some(r.error);
        }
        celebs := celebs[r.value.celebId := r.value];
        i := i + 1;
      }
    }

    method LoadEmbeddings(embFile: FileRead<NdArray>, idsFile: FileRead<seq<string>>)
      modifies this`embeddings, this`ids, this`idToIndex
      ensures embeddings == EmbeddingsAfter(old(embeddings), embFile)
      ensures ids == IdsAfter(old(ids), embFile, idsFile)
      ensures idToIndex == IndexAfter(old(idToIndex), embFile, idsFile)
    {
      if embFile.Absent? {
        return;
      }
      if embFile.Unreadable? {
        embeddings := None;
        return;
      }
      embeddings := Some(embFile.value);
      if idsFile.Absent? {
        return;
      }
      if idsFile.Unreadable? {
        ids := None;
        return;
      }
      var xs := idsFile.value;
      ids := Some(xs);
      var j := 0;
      while j < |xs|
        invariant 0 <= j <= |xs|
        invariant embeddings == Some(embFile.value) && ids == Some(xs)
        invariant idToIndex == old(idToIndex) + IdIndex(xs[..j])
      {
        assert xs[..j + 1][..j] == xs[..j];
        idToIndex := idToIndex[xs[j] := j];
        j := j + 1;
      }
      assert xs[..|xs|] == xs;
    }

    /** `get_celeb_name`. */
    function CelebName(celebId: string): (r: string)
      reads this
      ensures r == NameOf(celebs, celebId)
    {
      NameOf(celebs, celebId)
    }

    /** `get_embedding`: `None` when arrays are missing or the id unknown;
        `OutOfRange` is numpy's `IndexError` for an index past the rows. */
    function GetEmbedding(celebId: string): (r: Lookup)
      reads this
      ensures r.Found? <==> (embeddings.Some? && celebId in idToIndex && idToIndex[celebId] < |embeddings.value.rows|)
      ensures r.Found? ==> r.row == embeddings.value.rows[idToIndex[celebId]]
      ensures r.NotFound? <==> (embeddings.None? || celebId !in idToIndex)
    {
      if embeddings.None? || celebId !in idToIndex then NotFound
      else if idToIndex[celebId] < |embeddings.value.rows| then Found(embeddings.value.rows[idToIndex[celebId]])
      else OutOfRange
    }

    /** `get_all_embeddings`: both arrays, or the `ValueError` when either is
        missing. */
    function GetAllEmbeddings(): (r: Result<(NdArray, seq<string>), string>)
      reads this
      ensures r.Ok? <==> embeddings.Some? && ids.Some?
      ensures r.Ok? ==> r.value == (embeddings.value, ids.value)
      ensures r.Err? ==> r.error == "Embeddings not loaded"
    {
      if embeddings.None? || ids.None? then Err("Embeddings not loaded")
      else Ok((embeddings.value, ids.value))
    }
  }

  datatype Lookup = NotFound | Found(row: seq<real>) | OutOfRange

  /** The name lookup of `get_celeb_name`: the stored name, even an empty one,
      and the id itself when there is no record. */
  function NameOf(celebs: map<string, CelebInfo>, celebId: string): (r: string)
    ensures celebId in celebs ==> r == celebs[celebId].name
    ensures celebId !in celebs ==> r == celebId
  {
    if celebId in celebs then celebs[celebId].name else celebId
  }

  /** The catalog name of a loaded CSV: the last row with the id wins, and an
      id without a row is shown as itself. */
  lemma NameAfterLoad(rows: seq<Row>, c: string, j: nat)
    requires AllParse(rows)
    requires j < |rows| && RowId(rows[j]) == c
    requires forall l :: j < l < |rows| ==> RowId(rows[l]) != c
    ensures NameOf(AddRows(map[], rows).0, c) == Cell(rows[j], "name").GetOr("")
  {
    AddRowsLastWins(map[], rows, c, j);
  }

  lemma NameWithoutRow(rows: seq<Row>, c: string)
    requires AllParse(rows)
    requires forall i :: 0 <= i < |rows| ==> RowId(rows[i]) != c
    ensures NameOf(AddRows(map[], rows).0, c) == c
  {
    AddRowsKeys(map[], rows, c);
  }
}
