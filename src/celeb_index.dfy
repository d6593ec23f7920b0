/** The expression index of the celebrity catalog
    (backend/app/infra/celeb_store/index.py). */
module CelebIndex {
  import opened Wrappers
  import opened Text
  import opened PyDict
  import opened Json
  import opened Arrays
  import Slices

  /** Expression label to celebrity ids, in dictionary order. */
  type Table = Dict<string, seq<string>>

  /** An entry of the images directory: a sub-directory with the names of
      the entries inside it, or anything else. */
  datatype DirEntry = SubDir(name: string, files: seq<string>) | Other(name: string)

  /** Where `load` finds its data: `expr_index.json` when that file exists,
      else the images directory when it exists, else nothing. */
  datatype Source = JsonFile(data: Dict<string, Json>) | Directory(entries: seq<DirEntry>) | NoImagesDir

  /** `d.get(k, [])`. */
  function GetList<K(==)>(m: map<K, seq<string>>, k: K): seq<string> {
    if k in m then m[k] else []
  }

  /** The number of times `c` occurs in `s`. */
  function Occ(s: seq<string>, c: string): nat {
    if s == [] then 0 else Occ(s[..|s| - 1], c) + (if s[|s| - 1] == c then 1 else 0)
  }

  /** `n` copies of `e`. */
  function Repeat(e: string, n: nat): (r: seq<string>)
    ensures |r| == n
  {
    if n == 0 then [] else Repeat(e, n - 1) + [e]
  }

  /** The reverse index of `(expression, ids)` entries at celebrity `c`: each
      expression once per occurrence of `c` in its list, in entry order. */
  function ExprsOf(entries: seq<(string, seq<string>)>, c: string): seq<string> {
    if entries == [] then []
    else
      var last := entries[|entries| - 1];
      ExprsOf(entries[..|entries| - 1], c) + Repeat(last.0, Occ(last.1, c))
  }

  /** The items of a table in order. */
  function Entries(t: Table): (r: seq<(string, seq<string>)>)
    requires Valid(t)
    ensures |r| == |t.keys| && forall i :: 0 <= i < |r| ==> r[i] == (t.keys[i], t.vals[t.keys[i]])
  {
    seq(|t.keys|, i requires 0 <= i < |t.keys| => (t.keys[i], t.vals[t.keys[i]]))
  }

  /** A JSON list of strings: the strings, in order; `None` for anything else. */
  function StringList(j: Json): (r: Option<seq<string>>)
    ensures r.Some? <==> j.JList? && forall i | 0 <= i < |j.items| :: j.items[i].JStr?
    ensures r.Some? ==> |r.value| == |j.items| && forall i | 0 <= i < |j.items| :: j.items[i] == JStr(r.value[i])
  {
    match j
    case JList(items) => Strings(items)
    case _ => None
  }

  /** The strings of a JSON list, when every item is a string. */
  function Strings(items: seq<Json>): (r: Option<seq<string>>)
    ensures r.Some? <==> forall i | 0 <= i < |items| :: items[i].JStr?
    ensures r.Some? ==> |r.value| == |items| && forall i | 0 <= i < |items| :: r.value[i] == items[i].s
  {
    if items == [] then Some([])
    else match (Strings(items[..|items| - 1]), items[|items| - 1])
      case (Some(init), JStr(s)) => Some(init + [s])
      case _ => None
  }

  /** `data.get(key, {})` read as a table of string lists; `None` when it has
      another shape. */
  function TableOf(j: Option<Json>): (r: Option<Table>)
    ensures j.None? ==> r == Some(Empty())
    ensures j.Some? && !j.value.JObj? ==> r.None?
    ensures j.Some? && j.value.JObj? ==>
      (r.Some? <==> Valid(j.value.obj) && forall k :: k in j.value.obj.vals ==> StringList(j.value.obj.vals[k]).Some?)
    ensures r.Some? ==> Valid(r.value)
    ensures r.Some? && j.Some? ==>
      && r.value.keys == j.value.obj.keys
      && (forall k :: k in r.value.vals <==> k in j.value.obj.vals)
      && (forall k :: k in j.value.obj.vals ==> StringList(j.value.obj.vals[k]) == Some(r.value.vals[k]))
  {
    match j
    case None => Some(Empty())
    case Some(JObj(d)) =>
      if Valid(d) && forall k :: k in d.vals ==> StringList(d.vals[k]).Some? then
        Some(Dict(d.keys, map k | k in d.vals :: StringList(d.vals[k]).value))
      else None
    case Some(_) => None
  }

  /** `data.get("expression_to_indices", {})`: the value is kept as it is,
      whatever its shape. */
  function IndicesOf(j: Option<Json>): (r: Json)
    ensures j.None? ==> r == JObj(Empty())
    ensures j.Some? ==> r == j.value
  {
    j.GetOr(JObj(Empty()))
  }

  /** The position of the last `c` in `s`, -1 when there is none (`rfind`). */
  function RFind(s: string, c: char): (r: int)
    ensures -1 <= r < |s|
  {
    if s == [] then -1 else if s[|s| - 1] == c then |s| - 1 else RFind(s[..|s| - 1], c)
  }

  /** `rfind` finds the last occurrence, and -1 only when there is none. */
  lemma {:induction false} RFindLast(s: string, c: char)
    ensures RFind(s, c) >= 0 ==> s[RFind(s, c)] == c && forall k :: RFind(s, c) < k < |s| ==> s[k] != c
    ensures RFind(s, c) == -1 ==> forall k :: 0 <= k < |s| ==> s[k] != c
  {
    if s != [] && s[|s| - 1] != c {
      RFindLast(s[..|s| - 1], c);
    }
  }

  /** `Path(name).suffix`: from the last dot on, when that dot is neither the
      first nor the last character. */
  function Suffix(name: string): string {
    var i := RFind(name, '.');
    if 0 < i < |name| - 1 then name[i..] else ""
  }

  /** `Path(name).stem`. */
  function Stem(name: string): string {
    var i := RFind(name, '.');
    if 0 < i < |name| - 1 then name[..i] else name
  }

  /** The stem and the suffix split the name. */
  lemma StemSuffix(name: string)
    ensures Stem(name) + Suffix(name) == name
  {
    var i := RFind(name, '.');
    if 0 < i < |name| - 1 {
      assert name[..i] + name[i..] == name;
    }
  }

  /** Whether the directory build admits a file: suffix `.jpg`, `.jpeg` or
      `.png`, in any case. */
  predicate IsImage(name: string) {
    ImageSuffix(Lower(Suffix(name)))
  }

  predicate ImageSuffix(suffix: string) {
    suffix == ".jpg" || suffix == ".jpeg" || suffix == ".png"
  }

  /** A non-empty id followed by one of the admitted extensions is admitted,
      and the id is its stem. */
  lemma ImageFileName(id: string, ext: string)
    requires id != [] && ImageSuffix(ext)
    ensures IsImage(id + ext) && Stem(id + ext) == id
  {
    var name := id + ext;
    RFindLast(name, '.');
    assert forall k :: 1 <= k < |ext| ==> ext[k] != '.';
    assert name[|id|] == '.';
    assert forall k :: |id| < k < |name| ==> name[k] == ext[k - |id|];
    var i := RFind(name, '.');
    assert i == |id|;
    assert name[i..] == ext && name[..i] == id;
    assert Lower(ext) == ext;
  }

  /** The ids a sub-directory contributes, in order. */
  function Images(files: seq<string>): seq<string> {
    if files == [] then []
    else Images(files[..|files| - 1]) + (if IsImage(files[|files| - 1]) then [Stem(files[|files| - 1])] else [])
  }

  /** The table the directory build leaves, starting from `t`. */
  function DirTable(t: Table, dirs: seq<DirEntry>): (r: Table)
    ensures Valid(t) ==> Valid(r)
  {
    if dirs == [] then t
    else
      var init := DirTable(t, dirs[..|dirs| - 1]);
      match dirs[|dirs| - 1]
      case SubDir(name, files) => Put(init, name, Images(files))
      case Other(_) => init
  }

  /** The `(expression, ids)` pairs the directory build feeds the reverse index. */
  function DirEntries(dirs: seq<DirEntry>): seq<(string, seq<string>)> {
    if dirs == [] then []
    else
      var init := DirEntries(dirs[..|dirs| - 1]);
      match dirs[|dirs| - 1]
      case SubDir(name, files) => init + [(name, Images(files))]
      case Other(_) => init
  }

  /** The expressions whose list holds the id `c`, with multiplicity: in a
      table, expression `e` occurs in the reverse index at `c` exactly as
      often as `c` occurs in `e`'s list. */
  lemma ReverseCount(t: Table, c: string, e: string)
    requires Valid(t)
    ensures multiset(ExprsOf(Entries(t), c))[e] == if e in t.vals then Occ(t.vals[e], c) else 0
  {
    ReverseCountPrefix(t, |t.keys|, c, e);
    assert Entries(t)[..|t.keys|] == Entries(t);
    assert t.keys[..|t.keys|] == t.keys;
    if e in t.vals {
      var i :| 0 <= i < |t.keys| && t.keys[i] == e;
    }
  }

  lemma {:induction false} ReverseCountPrefix(t: Table, n: nat, c: string, e: string)
    requires Valid(t) && n <= |t.keys|
    ensures multiset(ExprsOf(Entries(t)[..n], c))[e] == if e in t.keys[..n] then Occ(t.vals[e], c) else 0
  {
    if n > 0 {
      ReverseCountPrefix(t, n - 1, c, e);
      var k := t.keys[n - 1];
      ExprsPrefixStep(t, n, c);
      RepeatCount(k, Occ(t.vals[k], c), e);
      KeysPrefixStep(t, n, e);
    }
  }

  lemma ExprsPrefixStep(t: Table, n: nat, c: string)
    requires Valid(t) && 0 < n <= |t.keys|
    ensures ExprsOf(Entries(t)[..n], c)
      == ExprsOf(Entries(t)[..n - 1], c) + Repeat(t.keys[n - 1], Occ(t.vals[t.keys[n - 1]], c))
  {
    var es := Entries(t)[..n];
    assert es[..n - 1] == Entries(t)[..n - 1];
  }

  lemma KeysPrefixStep(t: Table, n: nat, e: string)
    requires Valid(t) && 0 < n <= |t.keys|
    ensures (e in t.keys[..n]) == (e in t.keys[..n - 1] || t.keys[n - 1] == e)
    ensures t.keys[n - 1] == e ==> e !in t.keys[..n - 1]
  {
    assert t.keys[..n] == t.keys[..n - 1] + [t.keys[n - 1]];
  }

  lemma RepeatCount(k: string, n: nat, e: string)
    ensures multiset(Repeat(k, n))[e] == if k == e then n else 0
  {
    if n > 0 {
      assert Repeat(k, n) == Repeat(k, n - 1) + [k];
      RepeatCount(k, n - 1, e);
    }
  }

  /** The rows-and-ids mask of `get_filtered_embeddings`. */
  function TargetMask(ids: seq<string>, target: set<string>): (mask: seq<bool>)
    ensures |mask| == |ids| && forall i :: 0 <= i < |ids| ==> (mask[i] <==> ids[i] in target)
  {
    seq(|ids|, i requires 0 <= i < |ids| => ids[i] in target)
  }

  /** The reverse index `m` holds what `base` held, then the expressions of
      `entries`. */
  ghost predicate RevAll(m: map<string, seq<string>>, base: map<string, seq<string>>,
                         entries: seq<(string, seq<string>)>)
  {
    forall c :: GetList(m, c) == GetList(base, c) + ExprsOf(entries, c)
  }

  ghost predicate RevIs(m: map<string, seq<string>>, base: map<string, seq<string>>,
                        entries: seq<(string, seq<string>)>, e: string, current: seq<string>)
  {
    forall c :: GetList(m, c) == GetList(base, c) + ExprsOf(entries, c) + Repeat(e, Occ(current, c))
  }

  /** `_celeb_to_exprs[x].append(e)` (creating the list first). */
  function AppendTo(m: map<string, seq<string>>, x: string, e: string): map<string, seq<string>> {
    m[x := GetList(m, x) + [e]]
  }

  lemma RevStep(m: map<string, seq<string>>, base: map<string, seq<string>>,
                entries: seq<(string, seq<string>)>, e: string, current: seq<string>, x: string)
    requires RevIs(m, base, entries, e, current)
    ensures RevIs(AppendTo(m, x, e), base, entries, e, current + [x])
  {
    var m' := AppendTo(m, x, e);
    assert (current + [x])[..|current|] == current;
    forall c ensures GetList(m', c) == GetList(base, c) + ExprsOf(entries, c) + Repeat(e, Occ(current + [x], c)) {
      var a, b, r := GetList(base, c), ExprsOf(entries, c), Repeat(e, Occ(current, c));
      if c == x {
        assert Repeat(e, Occ(current + [x], c)) == r + [e];
        assert GetList(m', c) == a + b + r + [e];
        Slices.Assoc(a + b, r, [e]);
      } else {
        assert Occ(current + [x], c) == Occ(current, c);
      }
    }
  }

  lemma RevNone(m: map<string, seq<string>>, entries: seq<(string, seq<string>)>)
    requires entries == []
    ensures RevAll(m, m, entries)
  {
    forall c ensures GetList(m, c) == GetList(m, c) + ExprsOf(entries, c) {
      assert GetList(m, c) + [] == GetList(m, c);
    }
  }

  lemma RevStart(m: map<string, seq<string>>, base: map<string, seq<string>>,
                 entries: seq<(string, seq<string>)>, e: string)
    requires RevAll(m, base, entries)
    ensures RevIs(m, base, entries, e, [])
  {
    forall c ensures GetList(m, c) == GetList(base, c) + ExprsOf(entries, c) + Repeat(e, Occ([], c)) {
      assert GetList(base, c) + ExprsOf(entries, c) + [] == GetList(base, c) + ExprsOf(entries, c);
    }
  }

  lemma RevClose(m: map<string, seq<string>>, base: map<string, seq<string>>,
                 entries: seq<(string, seq<string>)>, e: string, current: seq<string>)
    requires RevIs(m, base, entries, e, current)
    ensures RevAll(m, base, entries + [(e, current)])
  {
    var es := entries + [(e, current)];
    assert es[..|es| - 1] == entries;
    forall c ensures GetList(m, c) == GetList(base, c) + ExprsOf(es, c) {
      ExprsSnoc(entries, e, current, c);
      var a, b, r := GetList(base, c), ExprsOf(entries, c), Repeat(e, Occ(current, c));
      assert GetList(m, c) == a + b + r;
      Slices.Assoc(a, b, r);
    }
  }

  lemma ExprsSnoc(entries: seq<(string, seq<string>)>, e: string, current: seq<string>, c: string)
    ensures ExprsOf(entries + [(e, current)], c) == ExprsOf(entries, c) + Repeat(e, Occ(current, c))
  {
    var es := entries + [(e, current)];
    assert es[..|es| - 1] == entries;
  }

  /** One more entry of the images directory. */
  lemma DirStep(t: Table, dirs: seq<DirEntry>, i: nat)
    requires i < |dirs|
    ensures dirs[i].Other? ==> DirTable(t, dirs[..i + 1]) == DirTable(t, dirs[..i])
                               && DirEntries(dirs[..i + 1]) == DirEntries(dirs[..i])
    ensures dirs[i].SubDir? ==>
      DirTable(t, dirs[..i + 1]) == Put(DirTable(t, dirs[..i]), dirs[i].name, Images(dirs[i].files))
      && DirEntries(dirs[..i + 1]) == DirEntries(dirs[..i]) + [(dirs[i].name, Images(dirs[i].files))]
  {
    assert dirs[..i + 1][..i] == dirs[..i];
  }

  /** Setting a key twice keeps the second value, in the first one's place. */
  lemma PutTwice<V>(t: Dict<string, V>, k: string, a: V, b: V)
    ensures Put(Put(t, k, a), k, b) == Put(t, k, b)
  {
  }

  /** One more file of a sub-directory. */
  lemma ImagesStep(files: seq<string>, j: nat)
    requires j < |files|
    ensures IsImage(files[j]) ==> Images(files[..j + 1]) == Images(files[..j]) + [Stem(files[j])]
    ensures !IsImage(files[j]) ==> Images(files[..j + 1]) == Images(files[..j])
  {
    assert files[..j + 1][..j] == files[..j];
  }

  /** One file of the directory build, as a step of its invariant. */
  lemma SubDirStep(m: map<string, seq<string>>, base: map<string, seq<string>>,
                   entries: seq<(string, seq<string>)>, expression: string, files: seq<string>, j: nat,
                   t0: Table, t: Table)
    requires j < |files|
    requires RevIs(m, base, entries, expression, Images(files[..j]))
    requires t == Put(t0, expression, Images(files[..j]))
    ensures IsImage(files[j]) ==>
      && expression in t.vals
      && RevIs(AppendTo(m, Stem(files[j]), expression), base, entries, expression, Images(files[..j + 1]))
      && Put(t, expression, t.vals[expression] + [Stem(files[j])]) == Put(t0, expression, Images(files[..j + 1]))
    ensures !IsImage(files[j]) ==>
      RevIs(m, base, entries, expression, Images(files[..j + 1])) && Images(files[..j + 1]) == Images(files[..j])
  {
    ImagesStep(files, j);
    if IsImage(files[j]) {
      RevStep(m, base, entries, expression, Images(files[..j]), Stem(files[j]));
      PutTwice(t0, expression, Images(files[..j]), Images(files[..j]) + [Stem(files[j])]);
    }
  }

  lemma RevFromEmpty(m: map<string, seq<string>>, entries: seq<(string, seq<string>)>)
    requires RevAll(m, map[], entries)
    ensures forall c :: GetList(m, c) == ExprsOf(entries, c)
  {
    forall c ensures GetList(m, c) == ExprsOf(entries, c) {
      assert GetList(map[], c) == [];
      assert [] + ExprsOf(entries, c) == ExprsOf(entries, c);
    }
  }

  class ExpressionIndex {
    var exprToCelebs: Table
    var exprToIndices: Json
    var celebToExprs: map<string, seq<string>>
    var loaded: bool

    ghost predicate Valid()
      reads this
    {
      PyDict.Valid(exprToCelebs)
      && (!loaded ==> exprToCelebs == Empty() && exprToIndices == JObj(Empty()) && celebToExprs == map[])
    }

    constructor()
      ensures Valid() && !loaded
    {
      exprToCelebs := Empty();
      exprToIndices := JObj(Empty());
      celebToExprs := map[];
      loaded := false;
    }

    /** `_load_from_json` on the two tables read from the file: the reverse
        index gets, for every celebrity, each expression once per occurrence
        in that expression's list. */
    method LoadFromJson(table: Table, indices: Json)
      requires PyDict.Valid(table)
      modifies this`exprToCelebs, this`exprToIndices, this`celebToExprs
      ensures exprToCelebs == table && exprToIndices == indices && loaded == old(loaded)
      ensures RevAll(celebToExprs, old(celebToExprs), Entries(table))
    {
      var entries := Entries(table);
      ghost var base := celebToExprs;
      var rev := celebToExprs;
      var i := 0;
      assert RevAll(rev, base, entries[..0]) by { RevNone(rev, entries[..0]); }
      while i < |table.keys|
        invariant 0 <= i <= |table.keys|
        invariant RevAll(rev, base, entries[..i])
      {
        var expr := table.keys[i];
        var celebs := table.vals[expr];
        assert entries[..i + 1] == entries[..i] + [(expr, celebs)];
        RevStart(rev, base, entries[..i], expr);
        var j := 0;
        while j < |celebs|
          invariant 0 <= j <= |celebs|
          invariant RevIs(rev, base, entries[..i], expr, celebs[..j])
        {
          var celebId := celebs[j];
          assert celebs[..j + 1] == celebs[..j] + [celebId];
          RevStep(rev, base, entries[..i], expr, celebs[..j], celebId);
          rev := AppendTo(rev, celebId, expr);
          j := j + 1;
        }
        assert celebs[..j] == celebs;
        RevClose(rev, base, entries[..i], expr, celebs);
        i := i + 1;
      }
      assert entries[..i] == entries;
      exprToCelebs, exprToIndices, celebToExprs := table, indices, rev;
    }

    /** `_build_from_directory` over the sub-directories of the images
        directory, in the order they are listed: each becomes the list of
        the stems of its image files, and every id found is indexed back. */
    method BuildFromDirectory(dirs: seq<DirEntry>)
      requires PyDict.Valid(exprToCelebs)
      modifies this`exprToCelebs, this`celebToExprs
      ensures exprToCelebs == DirTable(old(exprToCelebs), dirs)
      ensures exprToIndices == old(exprToIndices) && loaded == old(loaded)
      ensures RevAll(celebToExprs, old(celebToExprs), DirEntries(dirs))
    {
      var i := 0;
      while i < |dirs|
        invariant 0 <= i <= |dirs|
        invariant exprToCelebs == DirTable(old(exprToCelebs), dirs[..i])
        invariant RevAll(celebToExprs, old(celebToExprs), DirEntries(dirs[..i]))
      {
        DirStep(old(exprToCelebs), dirs, i);
        if dirs[i].SubDir? {
          IndexSubDir(dirs[i].name, dirs[i].files, old(celebToExprs), DirEntries(dirs[..i]));
          RevClose(celebToExprs, old(celebToExprs), DirEntries(dirs[..i]), dirs[i].name, Images(dirs[i].files));
        }
        i := i + 1;
      }
      assert dirs[..i] == dirs;
    }

    /** The body of the directory build for one sub-directory `expression`:
        its list restarts empty and gets the stem of every image file, each
        of which is indexed back to `expression`. */
    method IndexSubDir(expression: string, files: seq<string>, ghost base: map<string, seq<string>>,
                       ghost entries: seq<(string, seq<string>)>)
      requires RevAll(celebToExprs, base, entries)
      modifies this`exprToCelebs, this`celebToExprs
      ensures exprToCelebs == Put(old(exprToCelebs), expression, Images(files))
      ensures exprToIndices == old(exprToIndices) && loaded == old(loaded)
      ensures RevIs(celebToExprs, base, entries, expression, Images(files))
    {
      ghost var t0 := exprToCelebs;
      var table, rev := exprToCelebs, celebToExprs;
      RevStart(rev, base, entries, expression);
      assert files[..0] == [] && Images(files[..0]) == [];
      table := Put(table, expression, []);
      var j := 0;
      while j < |files|
        invariant 0 <= j <= |files|
        invariant table == Put(t0, expression, Images(files[..j]))
        invariant RevIs(rev, base, entries, expression, Images(files[..j]))
      {
        var file := files[j];
        SubDirStep(rev, base, entries, expression, files, j, t0, table);
        if IsImage(file) {
          var celebId := Stem(file);
          table := Put(table, expression, table.vals[expression] + [celebId]);
          rev := AppendTo(rev, celebId, expression);
        }
        j := j + 1;
      }
      assert files[..j] == files;
      exprToCelebs, celebToExprs := table, rev;
    }

    /** `load`: once loaded the index never changes again; otherwise it is
        filled from the JSON file, else from the images directory, else left
        empty. A JSON file whose tables have another shape is refused
        (`ok` false) and leaves the index unloaded. */
    method Load(src: Source) returns (ok: bool)
      requires Valid()
      modifies this
      ensures Valid()
      ensures old(loaded) ==> ok && unchanged(this)
      ensures !ok ==> unchanged(this)
      ensures !old(loaded) && ok ==> loaded && match src
        case JsonFile(data) =>
          && TableOf(Field(data, "expression_to_celebs")) == Some(exprToCelebs)
          && exprToIndices == IndicesOf(Field(data, "expression_to_indices"))
          && forall c :: GetList(celebToExprs, c) == ExprsOf(Entries(exprToCelebs), c)
        case Directory(dirs) =>
          && exprToCelebs == DirTable(Empty(), dirs) && exprToIndices == JObj(Empty())
          && forall c :: GetList(celebToExprs, c) == ExprsOf(DirEntries(dirs), c)
        case NoImagesDir => exprToCelebs == Empty() && exprToIndices == JObj(Empty()) && celebToExprs == map[]
      ensures !old(loaded) && !ok ==> src.JsonFile?
    {
      if loaded {
        return true;
      }
      match src {
        case JsonFile(data) =>
          var table := TableOf(Field(data, "expression_to_celebs"));
          var indices := IndicesOf(Field(data, "expression_to_indices"));
          if table.None? {
            return false;
          }
          LoadFromJson(table.value, indices);
          RevFromEmpty(celebToExprs, Entries(table.value));
        case Directory(dirs) =>
          BuildFromDirectory(dirs);
          RevFromEmpty(celebToExprs, DirEntries(dirs));
        case NoImagesDir =>
      }
      loaded := true;
      ok := true;
    }

    /** `expressions`. */
    function Expressions(): seq<string>
      reads this
    {
      exprToCelebs.keys
    }

    /** `get_celebs_by_expression`: `[]` for an unknown expression. */
    function GetCelebsByExpression(expression: string): (r: seq<string>)
      reads this
      ensures expression !in exprToCelebs.vals ==> r == []
      ensures expression in exprToCelebs.vals ==> r == exprToCelebs.vals[expression]
    {
      CelebsIn(exprToCelebs, expression)
    }

    /** `get_indices_by_expression`: the stored value under the expression,
        `[]` for an unknown one; `None` is the `AttributeError` of `.get`
        on a stored value that is not an object. */
    function GetIndicesByExpression(expression: string): (r: Option<Json>)
      reads this
      ensures r.None? <==> !exprToIndices.JObj?
      ensures exprToIndices.JObj? && expression in exprToIndices.obj.vals ==>
        r == Some(exprToIndices.obj.vals[expression])
      ensures exprToIndices.JObj? && expression !in exprToIndices.obj.vals ==> r == Some(JList([]))
    {
      match exprToIndices
      case JObj(d) => Some(Get(d, expression).GetOr(JList([])))
      case _ => None
    }

    /** `get_expressions_by_celeb`: the celebrity's expressions, `[]` for an
        unknown one. */
    function GetExpressionsByCeleb(celebId: string): (r: seq<string>)
      reads this
      ensures celebId !in celebToExprs ==> r == []
      ensures celebId in celebToExprs ==> r == celebToExprs[celebId]
    {
      GetList(celebToExprs, celebId)
    }

    /** `has_expression`: the key is there, even with an empty list. */
    predicate HasExpression(expression: string)
      reads this
    {
      expression in exprToCelebs.vals
    }

    /** `count_by_expression`: 0 for an unknown expression. */
    function CountByExpression(expression: string): (n: nat)
      reads this
      ensures !HasExpression(expression) ==> n == 0
      ensures n == |GetCelebsByExpression(expression)|
    {
      |Get(exprToCelebs, expression).GetOr([])|
    }

    /** `get_filtered_embeddings`, on the loaded table. */
    function GetFilteredEmbeddings(expression: string, embeddings: NdArray, ids: seq<string>)
      : (r: Result<(NdArray, seq<string>), MaskError>)
      reads this
      ensures r == FilterEmbeddings(exprToCelebs, expression, embeddings, ids)
    {
      FilterEmbeddings(exprToCelebs, expression, embeddings, ids)
    }
  }

  /** The celebrities a table lists under an expression, `[]` for an unknown
      one. */
  function CelebsIn(table: Table, expression: string): (r: seq<string>)
    ensures expression !in table.vals ==> r == []
    ensures expression in table.vals ==> r == table.vals[expression]
  {
    Get(table, expression).GetOr([])
  }

  /** Why numpy refuses the mask of `get_filtered_embeddings`: the empty
      mask `np.array([])` is a float array, not a boolean one; or a boolean
      mask that does not fit the rows of the embeddings. */
  datatype MaskError = FloatMask | MaskMisfit

  /** numpy's text for an index array that is neither integer nor boolean. */
  const FloatMaskText := "arrays used as indices must be of integer (or boolean) type"

  /** `get_filtered_embeddings`: when the expression has no ids the inputs
      come back unchanged (fail-open); with ids to keep but no ids to test
      the mask is a float array; a mask that does not fit the rows is
      refused; otherwise exactly the rows whose id is listed, in their
      order, the embeddings and the ids kept aligned. */
  function FilterEmbeddings(table: Table, expression: string, embeddings: NdArray, ids: seq<string>)
    : (r: Result<(NdArray, seq<string>), MaskError>)
    ensures var target := set c | c in CelebsIn(table, expression);
      && (target == {} ==> r == Ok((embeddings, ids)))
      && (r == Err(FloatMask) <==> target != {} && ids == [])
      && (r == Err(MaskMisfit) <==>
            target != {} && ids != [] && !(|embeddings.shape| >= 1 && |embeddings.rows| == |ids|))
      && (target != {} && r.Ok? ==>
            var kept := Kept(TargetMask(ids, target));
            && |r.value.1| == |kept| && |r.value.0.rows| == |kept| && |r.value.0.shape| == |embeddings.shape|
            && (forall i :: 0 <= i < |kept| ==>
                  r.value.1[i] == ids[kept[i]] && r.value.0.rows[i] == embeddings.rows[kept[i]]
                  && r.value.1[i] in target)
            && (forall k :: 0 <= k < |ids| && ids[k] in target ==> k in kept)
            && r.value.0.shape[1..] == embeddings.shape[1..])
  {
    var target := set c | c in CelebsIn(table, expression);
    if target == {} then Ok((embeddings, ids))
    else if ids == [] then Err(FloatMask)
    else if !(|embeddings.shape| >= 1 && |embeddings.rows| == |ids|) then Err(MaskMisfit)
    else
      var mask := TargetMask(ids, target);
      MaskedAt(ids, mask);
      MaskedAt(embeddings.rows, mask);
      Ok((SelectRows(embeddings, mask), Masked(ids, mask)))
  }

  /** The index files the catalog scripts write map each label straight to a
      list of row numbers, with no `expression_to_celebs` key: loading such
      a file leaves the index empty, so no expression is known and filtering
      returns every candidate. */
  lemma ScriptIndexIsEmpty(data: Dict<string, Json>)
    requires "expression_to_celebs" !in data.vals
    ensures TableOf(Field(data, "expression_to_celebs")) == Some(Empty())
    ensures Entries(Empty<string, seq<string>>()) == []
  {
  }

  /** A freshly loaded index with an empty table knows no expression and
      filters nothing out. */
  lemma EmptyIndexFailsOpen(index: ExpressionIndex, expression: string, embeddings: NdArray, ids: seq<string>)
    requires index.exprToCelebs == Empty()
    ensures !index.HasExpression(expression) && index.CountByExpression(expression) == 0
    ensures index.GetFilteredEmbeddings(expression, embeddings, ids) == Ok((embeddings, ids))
  {
    assert index.GetCelebsByExpression(expression) == [];
    assert (set c | c in index.GetCelebsByExpression(expression)) == {};
  }

  /** A known expression with an empty list is reported present, yet
      filtering by it returns everything. */
  lemma EmptyListFailsOpen(index: ExpressionIndex, expression: string, embeddings: NdArray, ids: seq<string>)
    requires expression in index.exprToCelebs.vals && index.exprToCelebs.vals[expression] == []
    ensures index.HasExpression(expression) && index.CountByExpression(expression) == 0
    ensures index.GetFilteredEmbeddings(expression, embeddings, ids) == Ok((embeddings, ids))
  {
    assert (set c | c in index.GetCelebsByExpression(expression)) == {};
  }
}
