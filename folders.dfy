/**
 * Folder-tree flattening, `_loop_folders` (audiencemanager/audiencemanager.py and the identical
 * copy in audiencemanager/__init__.py).  The folder listing is a nested structure of lists and
 * dicts; every dict with a `folderId` contributes one row of five values, appended to five
 * parallel accumulator lists in pre-order, and a missing `name` or `parentFolderId` raises in the
 * middle of a row.
 */
module Folders {
  import opened Wrappers
  import opened PyValues

  /** The five accumulator lists `ids, names, parentids, folderCounts, paths`. */
  datatype Columns = Columns(ids: seq<Json>, names: seq<Json>, parentIds: seq<Json>,
                             folderCounts: seq<Json>, paths: seq<Json>)

  const NoColumns := Columns([], [], [], [], [])

  /** One row of the flattened listing. */
  datatype Row = Row(id: Json, name: Json, parentId: Json, folderCount: Json, path: Json)

  /** The lists after a walk, and the exception that stopped it, if any. */
  datatype Walked = Walked(cols: Columns, err: Option<Error>)

  /** All five lists have the same length. */
  predicate Aligned(c: Columns)
  {
    |c.names| == |c.ids| && |c.parentIds| == |c.ids| && |c.folderCounts| == |c.ids| && |c.paths| == |c.ids|
  }

  /** Each list of `c` is a prefix of the corresponding list of `d`. */
  predicate Prefix(c: Columns, d: Columns)
  {
    && c.ids <= d.ids && c.names <= d.names && c.parentIds <= d.parentIds
    && c.folderCounts <= d.folderCounts && c.paths <= d.paths
  }

  // ---------------------------------------------------------------------------
  // What one call does to the accumulators

  /** Lines 52-57 on a dict: with a `folderId`, append it, then `name`, then `parentFolderId`,
      then `folderCount` (default 0) and `path` (default ''); a missing `name` or
      `parentFolderId` raises KeyError after the lists before it have grown. */
  function Visit(fields: Fields, c: Columns): Walked
  {
    match Get(fields, "folderId")
    case None => Walked(c, None)
    case Some(id) =>
      var c1 := c.(ids := c.ids + [id]);
      match Get(fields, "name")
      case None => Walked(c1, Some(KeyError("name")))
      case Some(name) =>
        var c2 := c1.(names := c1.names + [name]);
        match Get(fields, "parentFolderId")
        case None => Walked(c2, Some(KeyError("parentFolderId")))
        case Some(parent) =>
          Walked(c2.(parentIds := c2.parentIds + [parent],
                     folderCounts := c2.folderCounts + [GetOrDefault(fields, "folderCount", Int(0))],
                     paths := c2.paths + [GetOrDefault(fields, "path", Str(""))]), None)
  }

  /** `_loop_folders(obj, ...)` with the lists `c` passed in: a list is walked element by element,
      a dict is visited and then its `subFolders` walked, anything else is left alone. */
  function Walk(v: Json, c: Columns): Walked
    decreases v, 1
  {
    match v
    case List(items) => WalkItems(v, 0, c)
    case Dict(fields) =>
      var w := Visit(fields, c);
      if w.err.Some? then w
      else
        (match IndexOf(fields, "subFolders")
         case Some(i) => Walk(fields[i].1, w.cols)
         case None => w)
    case _ => Walked(c, None)
  }

  /** The `for o in obj` loop from element `from` on; an exception leaves the loop. */
  function WalkItems(list: Json, from: nat, c: Columns): Walked
    requires list.List?
    decreases list, 0, |list.items| - from
  {
    if from >= |list.items| then Walked(c, None)
    else
      var w := Walk(list.items[from], c);
      if w.err.Some? then w else WalkItems(list, from + 1, w.cols)
  }

  // ---------------------------------------------------------------------------
  // The reference: the rows of a tree, in pre-order

  /** Every dict with a `folderId` has a `name` and a `parentFolderId`. */
  predicate WellFormed(v: Json)
    decreases v, 1
  {
    match v
    case List(items) => WellFormedItems(v, 0)
    case Dict(fields) =>
      && (HasKey(fields, "folderId") ==> HasKey(fields, "name") && HasKey(fields, "parentFolderId"))
      && (match IndexOf(fields, "subFolders")
          case Some(i) => WellFormed(fields[i].1)
          case None => true)
    case _ => true
  }

  predicate WellFormedItems(list: Json, from: nat)
    requires list.List?
    decreases list, 0, |list.items| - from
  {
    from >= |list.items| || (WellFormed(list.items[from]) && WellFormedItems(list, from + 1))
  }

  /** The row a folder dict contributes. */
  function RowOf(fields: Fields): Row
  {
    Row(Get(fields, "folderId").GetOr(Null), Get(fields, "name").GetOr(Null),
        Get(fields, "parentFolderId").GetOr(Null),
        GetOrDefault(fields, "folderCount", Int(0)), GetOrDefault(fields, "path", Str("")))
  }

  /** The rows of a tree in pre-order: a folder before its sub-folders, list elements left to right. */
  function Rows(v: Json): seq<Row>
    decreases v, 1
  {
    match v
    case List(items) => RowsItems(v, 0)
    case Dict(fields) =>
      (if HasKey(fields, "folderId") then [RowOf(fields)] else [])
      + (match IndexOf(fields, "subFolders")
         case Some(i) => Rows(fields[i].1)
         case None => [])
    case _ => []
  }

  function RowsItems(list: Json, from: nat): seq<Row>
    requires list.List?
    decreases list, 0, |list.items| - from
  {
    if from >= |list.items| then [] else Rows(list.items[from]) + RowsItems(list, from + 1)
  }

  /** Append one row to the five lists. */
  function AppendRow(c: Columns, r: Row): Columns
  {
    Columns(c.ids + [r.id], c.names + [r.name], c.parentIds + [r.parentId],
            c.folderCounts + [r.folderCount], c.paths + [r.path])
  }

  /** Append rows to the five lists, in order. */
  function Extend(c: Columns, rows: seq<Row>): Columns
    decreases |rows|
  {
    if rows == [] then c else Extend(AppendRow(c, rows[0]), rows[1..])
  }

  // ---------------------------------------------------------------------------
  // The accumulators as the source keeps them

  /** The five lists `_loop_folders` appends to, shared by every recursive call. */
  class FolderColumns {
    var ids: seq<Json>
    var names: seq<Json>
    var parentIds: seq<Json>
    var folderCounts: seq<Json>
    var paths: seq<Json>

    function Cols(): Columns
      reads this
    {
      Columns(ids, names, parentIds, folderCounts, paths)
    }

    /** Lists passed in by the caller (`list()` for each one the caller leaves as None). */
    constructor (start: Columns)
      ensures Cols() == start
    {
      ids, names, parentIds, folderCounts, paths := start.ids, start.names, start.parentIds, start.folderCounts, start.paths;
    }

    /** Lines 47-60: walk `obj`, appending to the lists in place; the exception that stops the
        walk, if any, is returned and the lists keep what was appended before it. */
    method LoopFolders(obj: Json) returns (err: Option<Error>)
      modifies this
      ensures Walk(obj, old(Cols())) == Walked(Cols(), err)
      decreases obj, 1
    {
      match obj
      case List(items) =>
        var i := 0;
        while i < |items|
          invariant 0 <= i <= |items|
          invariant Walk(obj, old(Cols())) == WalkItems(obj, i, Cols())
        {
          err := LoopFolders(items[i]);
          if err.Some? {
            return;
          }
          i := i + 1;
        }
        return None;
      case Dict(fields) =>
        var id := Get(fields, "folderId");
        if id.Some? {
          ids := ids + [id.value];
          var name := Get(fields, "name");
          if name.None? {
            return Some(KeyError("name"));
          }
          names := names + [name.value];
          var parent := Get(fields, "parentFolderId");
          if parent.None? {
            return Some(KeyError("parentFolderId"));
          }
          parentIds := parentIds + [parent.value];
          folderCounts := folderCounts + [GetOrDefault(fields, "folderCount", Int(0))];
          paths := paths + [GetOrDefault(fields, "path", Str(""))];
        }
        var sub := IndexOf(fields, "subFolders");
        if sub.Some? {
          err := LoopFolders(fields[sub.value].1);
          return;
        }
        return None;
      case _ =>
        return None;
    }
  }

  /** `_loop_folders(res)` as `getTraitFolders` and `getSegmentFolders` call it: fresh lists, which
      come back as the rows of the tree in pre-order, or the KeyError of an incomplete folder. */
  method FlattenFolders(obj: Json) returns (r: Result<Columns, Error>)
    ensures r.Success? <==> WellFormed(obj)
    ensures r.Success? ==> r.value == Extend(NoColumns, Rows(obj)) && Aligned(r.value)
    ensures r.Success? ==> |r.value.ids| == |Rows(obj)|
    ensures r.Failure? ==> r.error == KeyError("name") || r.error == KeyError("parentFolderId")
  {
    var acc := new FolderColumns(NoColumns);
    var err := acc.LoopFolders(obj);
    WalkIsExtend(obj, NoColumns);
    WalkErrors(obj, NoColumns);
    ExtendShape(NoColumns, Rows(obj));
    if err.Some? {
      return Failure(err.value);
    }
    return Success(acc.Cols());
  }

  // ---------------------------------------------------------------------------
  // Lemmas

  /** Appending rows grows every list by the rows' values, after what was there. */
  lemma {:induction false} ExtendShape(c: Columns, rows: seq<Row>)
    ensures var d := Extend(c, rows);
      && Prefix(c, d)
      && |d.ids| == |c.ids| + |rows| && |d.names| == |c.names| + |rows|
      && |d.parentIds| == |c.parentIds| + |rows| && |d.folderCounts| == |c.folderCounts| + |rows|
      && |d.paths| == |c.paths| + |rows|
      && (forall j :: 0 <= j < |rows| ==>
            && d.ids[|c.ids| + j] == rows[j].id && d.names[|c.names| + j] == rows[j].name
            && d.parentIds[|c.parentIds| + j] == rows[j].parentId
            && d.folderCounts[|c.folderCounts| + j] == rows[j].folderCount
            && d.paths[|c.paths| + j] == rows[j].path)
      && (Aligned(c) ==> Aligned(d))
    decreases |rows|
  {
    if rows != [] {
      var c1 := AppendRow(c, rows[0]);
      ExtendShape(c1, rows[1..]);
      var d := Extend(c, rows);
      forall j | 0 <= j < |rows|
        ensures && d.ids[|c.ids| + j] == rows[j].id && d.names[|c.names| + j] == rows[j].name
                && d.parentIds[|c.parentIds| + j] == rows[j].parentId
                && d.folderCounts[|c.folderCounts| + j] == rows[j].folderCount
                && d.paths[|c.paths| + j] == rows[j].path
      {
        if j > 0 {
          assert rows[j] == rows[1..][j - 1];
        }
      }
    }
  }

  /** Appending two runs of rows is appending their concatenation. */
  lemma {:induction false} ExtendConcat(c: Columns, a: seq<Row>, b: seq<Row>)
    ensures Extend(c, a + b) == Extend(Extend(c, a), b)
    decreases |a|
  {
    if a != [] {
      assert (a + b)[0] == a[0];
      assert (a + b)[1..] == a[1..] + b;
      ExtendConcat(AppendRow(c, a[0]), a[1..], b);
    } else {
      assert a + b == b;
    }
  }

  /** The walk succeeds exactly on a well-formed tree, and then appends the rows of the tree in
      pre-order, whatever the lists held before. */
  lemma {:induction false} WalkIsExtend(v: Json, c: Columns)
    ensures Walk(v, c).err.None? <==> WellFormed(v)
    ensures Walk(v, c).err.None? ==> Walk(v, c).cols == Extend(c, Rows(v))
    decreases v, 1
  {
    match v
    case List(items) =>
      WalkItemsIsExtend(v, 0, c);
    case Dict(fields) =>
      var w := Visit(fields, c);
      var head := if HasKey(fields, "folderId") then [RowOf(fields)] else [];
      assert w.err.None? ==> w.cols == Extend(c, head);
      match IndexOf(fields, "subFolders") {
      case Some(i) =>
        if w.err.None? {
          WalkIsExtend(fields[i].1, w.cols);
          ExtendConcat(c, head, Rows(fields[i].1));
        }
      case None =>
        assert Rows(v) == head + [];
      }
    case _ =>
  }

  lemma {:induction false} WalkItemsIsExtend(list: Json, from: nat, c: Columns)
    requires list.List?
    ensures WalkItems(list, from, c).err.None? <==> WellFormedItems(list, from)
    ensures WalkItems(list, from, c).err.None? ==> WalkItems(list, from, c).cols == Extend(c, RowsItems(list, from))
    decreases list, 0, |list.items| - from
  {
    if from < |list.items| {
      var x := list.items[from];
      WalkIsExtend(x, c);
      var w := Walk(x, c);
      if w.err.None? {
        WalkItemsIsExtend(list, from + 1, w.cols);
        ExtendConcat(c, Rows(x), RowsItems(list, from + 1));
      }
    }
  }

  /** Whatever happens, the lists passed in survive as prefixes: the walk only appends. */
  lemma {:induction false} WalkKeepsPrefix(v: Json, c: Columns)
    ensures Prefix(c, Walk(v, c).cols)
    decreases v, 1
  {
    match v
    case List(items) =>
      WalkItemsKeepsPrefix(v, 0, c);
    case Dict(fields) =>
      var w := Visit(fields, c);
      match IndexOf(fields, "subFolders") {
      case Some(i) =>
        if w.err.None? {
          WalkKeepsPrefix(fields[i].1, w.cols);
        }
      case None =>
      }
    case _ =>
  }

  lemma {:induction false} WalkItemsKeepsPrefix(list: Json, from: nat, c: Columns)
    requires list.List?
    ensures Prefix(c, WalkItems(list, from, c).cols)
    decreases list, 0, |list.items| - from
  {
    if from < |list.items| {
      var w := Walk(list.items[from], c);
      WalkKeepsPrefix(list.items[from], c);
      if w.err.None? {
        WalkItemsKeepsPrefix(list, from + 1, w.cols);
      }
    }
  }

  /** Shape of the lists when a walk from aligned lists fails: the whole row before the
      failing folder is in, the failing one has its id (and its name when `parentFolderId` is
      what is missing), and nothing after it. */
  predicate BrokenRow(d: Columns, e: Error)
  {
    && |d.parentIds| == |d.paths| && |d.folderCounts| == |d.paths| && |d.ids| == |d.paths| + 1
    && ((e == KeyError("name") && |d.names| == |d.paths|)
        || (e == KeyError("parentFolderId") && |d.names| == |d.paths| + 1))
  }

  /** `f` is one of the dicts the walk of `v` visits: `v` itself, one of its list elements, or
      one inside its `subFolders`. */
  predicate Holds(v: Json, f: Fields)
    decreases v, 1
  {
    match v
    case List(items) => HoldsItems(v, 0, f)
    case Dict(fields) =>
      fields == f ||
      (match IndexOf(fields, "subFolders")
       case Some(i) => Holds(fields[i].1, f)
       case None => false)
    case _ => false
  }

  predicate HoldsItems(list: Json, from: nat, f: Fields)
    requires list.List?
    decreases list, 0, |list.items| - from
  {
    from < |list.items| && (Holds(list.items[from], f) || HoldsItems(list, from + 1, f))
  }

  /** The folder dict `f` is the one that raised `e`: the last id is its `folderId`, and it lacks
      the key `e` names; when that key is `parentFolderId`, the last name is its `name`. */
  predicate BrokenBy(d: Columns, e: Error, f: Fields)
  {
    && Get(f, "folderId").Some? && |d.ids| > 0 && d.ids[|d.ids| - 1] == Get(f, "folderId").value
    && (e == KeyError("name") ==> !HasKey(f, "name"))
    && (e == KeyError("parentFolderId") ==>
          && Get(f, "name").Some? && !HasKey(f, "parentFolderId")
          && |d.names| > 0 && d.names[|d.names| - 1] == Get(f, "name").value)
  }

  /** A walk from aligned lists ends aligned, or stops in the middle of the row of one of the
      folders in the tree, which lacks the key the KeyError names. */
  lemma {:induction false} WalkErrors(v: Json, c: Columns)
    requires Aligned(c)
    ensures var w := Walk(v, c);
      && (w.err.None? ==> Aligned(w.cols))
      && (w.err.Some? ==> BrokenRow(w.cols, w.err.value))
      && (w.err.Some? ==> exists f :: Holds(v, f) && BrokenBy(w.cols, w.err.value, f))
    decreases v, 1
  {
    match v
    case List(items) =>
      WalkItemsErrors(v, 0, c);
    case Dict(fields) =>
      var w := Visit(fields, c);
      if w.err.Some? {
        assert Holds(v, fields) && BrokenBy(w.cols, w.err.value, fields);
      } else {
        match IndexOf(fields, "subFolders") {
        case Some(i) =>
          WalkErrors(fields[i].1, w.cols);
          var w' := Walk(fields[i].1, w.cols);
          if w'.err.Some? {
            var f :| Holds(fields[i].1, f) && BrokenBy(w'.cols, w'.err.value, f);
            assert Holds(v, f);
          }
        case None =>
        }
      }
    case _ =>
  }

  lemma {:induction false} WalkItemsErrors(list: Json, from: nat, c: Columns)
    requires list.List? && Aligned(c)
    ensures var w := WalkItems(list, from, c);
      && (w.err.None? ==> Aligned(w.cols))
      && (w.err.Some? ==> BrokenRow(w.cols, w.err.value))
      && (w.err.Some? ==> exists f :: HoldsItems(list, from, f) && BrokenBy(w.cols, w.err.value, f))
    decreases list, 0, |list.items| - from
  {
    if from < |list.items| {
      var w := Walk(list.items[from], c);
      WalkErrors(list.items[from], c);
      if w.err.Some? {
        var f :| Holds(list.items[from], f) && BrokenBy(w.cols, w.err.value, f);
        assert HoldsItems(list, from, f);
      } else {
        WalkItemsErrors(list, from + 1, w.cols);
        var w' := WalkItems(list, from + 1, w.cols);
        if w'.err.Some? {
          var f :| HoldsItems(list, from + 1, f) && BrokenBy(w'.cols, w'.err.value, f);
          assert HoldsItems(list, from, f);
        }
      }
    }
  }

  /** A dict without `folderId` adds no row of its own, but its sub-folders are still walked. */
  lemma NoFolderIdStillWalked(fields: Fields, c: Columns)
    requires !HasKey(fields, "folderId") && HasKey(fields, "subFolders")
    ensures Walk(Dict(fields), c) == Walk(Get(fields, "subFolders").value, c)
  {
  }

  /** A folder without `folderCount` or `path` gets 0 and ''. */
  lemma DefaultsFilled(fields: Fields, c: Columns)
    requires HasKey(fields, "folderId") && HasKey(fields, "name") && HasKey(fields, "parentFolderId")
    requires !HasKey(fields, "folderCount") && !HasKey(fields, "path")
    ensures var d := Visit(fields, c).cols;
      d.folderCounts == c.folderCounts + [Int(0)] && d.paths == c.paths + [Str("")]
  {
  }

  /** Values that are neither list nor dict add nothing. */
  lemma ScalarsAddNothing(v: Json, c: Columns)
    requires !v.List? && !v.Dict?
    ensures Walk(v, c) == Walked(c, None) && Rows(v) == []
  {
  }
}
