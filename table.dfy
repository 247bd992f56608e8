/** The tabular renderer of util.py: display names for raw JSON keys, the
    key union of heterogeneous rows filled in place with a `{}` placeholder,
    columns in sorted raw-key order, and the best-effort substring filter.
    The table is its header and its rows; the rows are the display-keyed
    dictionaries that `prettytable.from_json` reads cell by cell. */
module Table {
  import opened Values
  import opened Text
  import opened Order

  /** A cell: text that is already the `str()` of its JSON value, or the
      `{}` placeholder written into a row that lacks the key. */
  datatype Cell = Str(text: string) | Placeholder

  /** `str(cell)` as the filter sees it. */
  function Show(c: Cell): string
  {
    if c.Str? then c.text else "{}"
  }

  /** One JSON object, keyed by raw key or, after formatting, by display
      name. */
  type Row = map<string, Cell>

  /** `--filter <field> <value>`: keep the rows whose field contains value. */
  datatype Filter = Filter(column: string, value: string)

  /** A rendered table: its column names, its rows keyed by those names, and
      the two sorting fields of a PrettyTable (`sortby`, `reversesort`). */
  datatype Table = Table(header: seq<string>, rows: seq<Row>, sortBy: Option<string>, reverseSort: bool)

  /** What `tabulate` is given: a list of objects (each mutable in place) or
      a single object. */
  datatype Data = Many(objects: array<Row>) | One(obj: Row)

  // ---------------------------------------------------------------------
  // Display names

  /** `key.replace('_', ' ').title()` */
  function DisplayName(key: string): string
  {
    Title(Replace(key, '_', ' '))
  }

  function DisplayNames(keys: seq<string>): seq<string>
  {
    seq(|keys|, i requires 0 <= i < |keys| => DisplayName(keys[i]))
  }

  /** A display name has the length of its key and no underscore; its words
      start with a capital letter. */
  lemma DisplayNameShape(key: string, i: nat)
    requires i < |key|
    ensures |DisplayName(key)| == |key|
    ensures DisplayName(key)[i] != '_'
    ensures DisplayName(key)[i] == ' ' <==> key[i] == ' ' || key[i] == '_'
    ensures IsLower(key[i]) && (i == 0 || key[i - 1] == '_') ==> DisplayName(key)[i] == Upper(key[i])
  {
    var r := Replace(key, '_', ' ');
    TitleAt(r, i);
    if i > 0 {
      assert r[i - 1] == if key[i - 1] == '_' then ' ' else key[i - 1];
    }
  }

  /** The raw key a filter column is looked up under:
      `filter[0].replace(' ', '_').lower()`. */
  function FilterKey(f: Filter): string
  {
    LowerAll(Replace(f.column, ' ', '_'))
  }

  /** The display name of the raw key a filter resolves to is the display
      name of the filter column as typed, so the later lookup
      `formatted_object[filter[0].replace('_', ' ').title()]` always finds
      it. */
  lemma FilterKeyDisplayName(f: Filter)
    ensures DisplayName(FilterKey(f)) == DisplayName(f.column)
  {
    var c := f.column;
    var a := Replace(FilterKey(f), '_', ' ');
    var b := LowerAll(Replace(c, '_', ' '));
    assert a == b by {
      forall i | 0 <= i < |c|
        ensures a[i] == b[i]
      {
      }
    }
    TitleIgnoresCase(Replace(c, '_', ' '));
  }

  /** The diagnostic printed for a column the table does not have. */
  function NotAColumn(name: string): string
  {
    "[" + name + "] isn't a column"
  }

  // ---------------------------------------------------------------------
  // Key union and placeholder filling

  /** `frozenset().union(*data)`: every key of every object. */
  function AllKeys(objs: seq<Row>): (keys: set<string>)
    ensures forall k :: k in keys <==> exists i :: 0 <= i < |objs| && k in objs[i]
  {
    if objs == [] then {}
    else
      var init := objs[..|objs| - 1];
      assert forall i :: 0 <= i < |init| ==> init[i] == objs[i];
      AllKeys(init) + objs[|objs| - 1].Keys
  }

  /** An object after `object[key] = {}` for every missing key. */
  function Filled(obj: Row, keys: set<string>): Row
  {
    map k | k in obj.Keys + keys :: if k in obj then obj[k] else Placeholder
  }

  /** `for key in all_keys: if key not in object: object[key] = {}`.  The
      loop visits the keys in whatever order the frozenset yields them. */
  method FillMissing(obj: Row, keys: set<string>) returns (filled: Row)
    ensures forall k :: k in filled <==> k in obj || k in keys
    ensures forall k :: k in filled ==> filled[k] == if k in obj then obj[k] else Placeholder
  {
    filled := obj;
    var todo := keys;
    while todo != {}
      invariant todo <= keys
      invariant forall k :: k in filled <==> k in obj || (k in keys && k !in todo)
      invariant forall k :: k in filled ==> filled[k] == if k in obj then obj[k] else Placeholder
      decreases |todo|
    {
      var key :| key in todo;
      if key !in filled {
        filled := filled[key := Placeholder];
      }
      todo := todo - {key};
    }
  }

  /** What FillMissing promises determines the filled object: the keys of
      obj keep their values and every other key of the union holds the
      placeholder. */
  lemma FilledDetermined(obj: Row, keys: set<string>, filled: Row)
    requires forall k :: k in filled <==> k in obj || k in keys
    requires forall k :: k in filled ==> filled[k] == if k in obj then obj[k] else Placeholder
    ensures filled == Filled(obj, keys)
  {
    var spec := Filled(obj, keys);
    assert filled.Keys == spec.Keys;
  }

  // ---------------------------------------------------------------------
  // format_field_names

  /** The dictionary `format_field_names` has built after visiting `keys` in
      order: each visit writes the key's value under its display name. */
  function FormatOver(obj: Row, keys: seq<string>): Row
    requires forall i :: 0 <= i < |keys| ==> keys[i] in obj
  {
    if keys == [] then map[]
    else
      var last := keys[|keys| - 1];
      FormatOver(obj, keys[..|keys| - 1])[DisplayName(last) := obj[last]]
  }

  /** `format_field_names(obj)`: the object keyed by display names, built in
      sorted raw-key order. */
  function Formatted(obj: Row): Row
  {
    FormatOver(obj, SortedKeys(obj.Keys))
  }

  /** The distinct elements of a sequence in order of first appearance: the
      key order of a Python dict that the sequence's elements are written
      into one after another. */
  function FirstNames(s: seq<string>): seq<string>
  {
    if s == [] then []
    else
      var p := FirstNames(s[..|s| - 1]);
      if s[|s| - 1] in p then p else p + [s[|s| - 1]]
  }

  lemma {:induction false} FirstNamesShape(s: seq<string>)
    ensures forall x :: x in FirstNames(s) <==> x in s
    ensures forall i, j :: 0 <= i < j < |FirstNames(s)| ==> FirstNames(s)[i] != FirstNames(s)[j]
    ensures (forall i, j :: 0 <= i < j < |s| ==> s[i] != s[j]) ==> FirstNames(s) == s
  {
    if s != [] {
      var init := s[..|s| - 1];
      FirstNamesShape(init);
      assert s == init + [s[|s| - 1]];
      if forall i, j :: 0 <= i < j < |s| ==> s[i] != s[j] {
        assert s[|s| - 1] !in init;
      }
    }
  }

  lemma {:induction false} FormatOverKeys(obj: Row, keys: seq<string>)
    requires forall i :: 0 <= i < |keys| ==> keys[i] in obj
    ensures FormatOver(obj, keys).Keys == set k | k in keys :: DisplayName(k)
  {
    if keys != [] {
      var init := keys[..|keys| - 1];
      FormatOverKeys(obj, init);
      assert keys == init + [keys[|keys| - 1]];
    }
  }

  /** The value under a display name is that of the last visited key with
      that display name. */
  lemma {:induction false} FormatOverLast(obj: Row, keys: seq<string>, j: nat)
    requires forall i :: 0 <= i < |keys| ==> keys[i] in obj
    requires j < |keys|
    requires forall l :: j < l < |keys| ==> DisplayName(keys[l]) != DisplayName(keys[j])
    ensures DisplayName(keys[j]) in FormatOver(obj, keys)
    ensures FormatOver(obj, keys)[DisplayName(keys[j])] == obj[keys[j]]
  {
    if j < |keys| - 1 {
      FormatOverLast(obj, keys[..|keys| - 1], j);
    }
  }

  /** The formatted object has a column for every key's display name and no
      other. */
  lemma FormattedKeys(obj: Row)
    ensures Formatted(obj).Keys == set k | k in obj :: DisplayName(k)
  {
    var sorted := SortedKeys(obj.Keys);
    SortedComplete(obj.Keys);
    FormatOverKeys(obj, sorted);
  }

  /** No key of obj after k (in sorted order) shares k's display name. */
  predicate LastWithName(obj: Row, k: string)
  {
    forall k2 :: k2 in obj && Less(k, k2) ==> DisplayName(k2) != DisplayName(k)
  }

  /** Each display name holds the value of the largest raw key (in sorted
      order) that has that display name; when display names do not collide,
      simply the key's own value. */
  lemma FormattedValue(obj: Row, k: string)
    requires k in obj
    requires LastWithName(obj, k)
    ensures DisplayName(k) in Formatted(obj)
    ensures Formatted(obj)[DisplayName(k)] == obj[k]
  {
    var sorted := SortedKeys(obj.Keys);
    SortedComplete(obj.Keys);
    SortedIncreasing(obj.Keys);
    var j :| 0 <= j < |sorted| && sorted[j] == k;
    forall l | j < l < |sorted|
      ensures DisplayName(sorted[l]) != DisplayName(sorted[j])
    {
      assert Less(sorted[j], sorted[l]);
    }
    FormatOverLast(obj, sorted, j);
  }

  /** One more visited key: its display name now holds its value. */
  lemma FormatOverStep(obj: Row, keys: seq<string>, i: nat)
    requires forall j :: 0 <= j < |keys| ==> keys[j] in obj
    requires i < |keys|
    ensures FormatOver(obj, keys[..i + 1]) == FormatOver(obj, keys[..i])[DisplayName(keys[i]) := obj[keys[i]]]
  {
    assert keys[..i + 1][..i] == keys[..i];
  }

  /** One more visited key: its display name joins the key order unless it is
      already there. */
  lemma NamesStep(keys: seq<string>, i: nat)
    requires i < |keys|
    ensures var p := FirstNames(DisplayNames(keys[..i]));
      FirstNames(DisplayNames(keys[..i + 1])) == if DisplayName(keys[i]) in p then p else p + [DisplayName(keys[i])]
  {
    assert DisplayNames(keys[..i + 1])[..i] == DisplayNames(keys[..i]);
  }

  /** `format_field_names(dict)`: visits the items in sorted key order and
      writes each value under its display name.  `names` is the key order of
      the resulting dict; FormattedKeys and FormattedValue say which columns
      it has and what they hold. */
  method FormatFieldNames(obj: Row) returns (formatted: Row, names: seq<string>)
    ensures formatted == Formatted(obj)
    ensures names == FirstNames(DisplayNames(SortedKeys(obj.Keys)))
    ensures forall n :: n in names <==> n in formatted
  {
    var sorted := SortedKeys(obj.Keys);
    formatted, names := map[], [];
    for i := 0 to |sorted|
      invariant formatted == FormatOver(obj, sorted[..i])
      invariant names == FirstNames(DisplayNames(sorted[..i]))
      invariant forall n :: n in names <==> n in formatted
    {
      var name := DisplayName(sorted[i]);
      FormatOverStep(obj, sorted, i);
      NamesStep(sorted, i);
      if name !in formatted {
        names := names + [name];
      }
      formatted := formatted[name := obj[sorted[i]]];
    }
    assert sorted[..|sorted|] == sorted;
  }

  // ---------------------------------------------------------------------
  // Filtering

  /** Whether a formatted row survives the filter (always, without one). */
  predicate Keep(row: Row, f: Option<Filter>)
  {
    f.None? ||
    (DisplayName(f.value.column) in row && Contains(Show(row[DisplayName(f.value.column)]), f.value.value))
  }

  /** The rows that survive, in their original order. */
  function Select(rows: seq<Row>, f: Option<Filter>): seq<Row>
  {
    if rows == [] then []
    else
      var last := rows[|rows| - 1];
      Select(rows[..|rows| - 1], f) + (if Keep(last, f) then [last] else [])
  }

  /** The positions of the rows that survive. */
  function KeptIndices(rows: seq<Row>, f: Option<Filter>): seq<nat>
  {
    if rows == [] then []
    else KeptIndices(rows[..|rows| - 1], f) + (if Keep(rows[|rows| - 1], f) then [|rows| - 1] else [])
  }

  /** The surviving rows are a subsequence of the input: they sit at
      strictly increasing positions, and a position is kept exactly when its
      row passes the filter. */
  lemma {:induction false} SelectSubsequence(rows: seq<Row>, f: Option<Filter>)
    ensures var idx := KeptIndices(rows, f);
      && |idx| == |Select(rows, f)|
      && (forall j :: 0 <= j < |idx| ==> idx[j] < |rows| && Select(rows, f)[j] == rows[idx[j]])
      && (forall j1, j2 :: 0 <= j1 < j2 < |idx| ==> idx[j1] < idx[j2])
      && (forall i :: 0 <= i < |rows| ==> (Keep(rows[i], f) <==> i in idx))
  {
    if rows != [] {
      var n := |rows| - 1;
      var init := rows[..n];
      SelectSubsequence(init, f);
      var idx0, sel0 := KeptIndices(init, f), Select(init, f);
      var kept := Keep(rows[n], f);
      var idx, sel := KeptIndices(rows, f), Select(rows, f);
      assert idx == idx0 + (if kept then [n] else []);
      assert sel == sel0 + (if kept then [rows[n]] else []);
      forall j | 0 <= j < |idx|
        ensures idx[j] < |rows| && sel[j] == rows[idx[j]]
      {
        if j < |idx0| {
          assert idx[j] == idx0[j] && sel[j] == sel0[j] && init[idx0[j]] == rows[idx0[j]];
        }
      }
      forall j1, j2 | 0 <= j1 < j2 < |idx|
        ensures idx[j1] < idx[j2]
      {
        if j2 < |idx0| {
          assert idx[j1] == idx0[j1] && idx[j2] == idx0[j2];
        } else {
          assert idx[j1] == idx0[j1] < |init|;
        }
      }
      forall i | 0 <= i < |rows|
        ensures Keep(rows[i], f) <==> i in idx
      {
        if i < n {
          assert init[i] == rows[i];
          assert i in idx <==> i in idx0;
        } else {
          assert forall j :: 0 <= j < |idx0| ==> idx0[j] < |init|;
        }
      }
    }
  }

  /** Without a filter every row survives. */
  lemma {:induction false} SelectNone(rows: seq<Row>)
    ensures Select(rows, None) == rows
  {
    if rows != [] {
      SelectNone(rows[..|rows| - 1]);
    }
  }

  /** Every surviving row is one of the input rows. */
  lemma {:induction false} SelectFrom(rows: seq<Row>, f: Option<Filter>)
    ensures forall r :: r in Select(rows, f) ==> r in rows
  {
    if rows != [] {
      SelectFrom(rows[..|rows| - 1], f);
    }
  }

  // ---------------------------------------------------------------------
  // tabulate_dictionary, tabulate_list, tabulate

  /** Every object filled with the keys it lacks, in order. */
  function FilledAll(objs: seq<Row>, keys: set<string>): (r: seq<Row>)
    ensures |r| == |objs|
  {
    if objs == [] then []
    else FilledAll(objs[..|objs| - 1], keys) + [Filled(objs[|objs| - 1], keys)]
  }

  lemma {:induction false} FilledAllAt(objs: seq<Row>, keys: set<string>, i: nat)
    requires i < |objs|
    ensures FilledAll(objs, keys)[i] == Filled(objs[i], keys)
  {
    if i < |objs| - 1 {
      FilledAllAt(objs[..|objs| - 1], keys, i);
    }
  }

  /** The formatted form of every filled object, in order. */
  function Formats(objs: seq<Row>, keys: set<string>): (r: seq<Row>)
    ensures |r| == |objs|
  {
    if objs == [] then []
    else Formats(objs[..|objs| - 1], keys) + [Formatted(Filled(objs[|objs| - 1], keys))]
  }

  lemma {:induction false} FormatsAt(objs: seq<Row>, keys: set<string>, i: nat)
    requires i < |objs|
    ensures Formats(objs, keys)[i] == Formatted(Filled(objs[i], keys))
  {
    if i < |objs| - 1 {
      FormatsAt(objs[..|objs| - 1], keys, i);
    }
  }

  /** One more row: it joins the survivors if it passes the filter. */
  lemma SelectStep(rows: seq<Row>, f: Option<Filter>, i: nat)
    requires i < |rows|
    ensures Select(rows[..i + 1], f) == Select(rows[..i], f) + (if Keep(rows[i], f) then [rows[i]] else [])
  {
    assert rows[..i + 1][..i] == rows[..i];
  }

  /** Whether a given filter names a column of the objects. */
  predicate FilterKnown(objs: seq<Row>, f: Option<Filter>)
  {
    f.Some? && FilterKey(f.value) in AllKeys(objs)
  }

  /** The diagnostics `tabulate_dictionary` prints. */
  function FilterDiagnostics(objs: seq<Row>, f: Option<Filter>): seq<string>
  {
    if f.Some? && !FilterKnown(objs, f) then [NotAColumn(DisplayName(f.value.column))] else []
  }

  /** The header and rows that `tabulate_dictionary(data, filter)` collects
      in `new_list` from the objects as they were before it filled them. */
  function DictionaryTable(objs: seq<Row>, f: Option<Filter>): Table
  {
    var keys := AllKeys(objs);
    var rows := Select(Formats(objs, keys), if FilterKnown(objs, f) then f else None);
    Table(DisplayNames(SortedKeys(keys)), rows, None, false)
  }

  /** No name occurs twice. */
  predicate UniqueNames(names: seq<string>)
  {
    forall i, j :: 0 <= i < j < |names| ==> names[i] != names[j]
  }

  /** Whether `prettytable.from_json` accepts the header built from objs:
      PrettyTable raises ValueError ("Field names must be unique") when two
      raw keys share a display name. */
  predicate Tabulable(objs: seq<Row>)
  {
    UniqueNames(DisplayNames(SortedKeys(AllKeys(objs))))
  }

  /** The second half of one pass of the row loop of `tabulate_dictionary`:
      format the filled object and keep it unless the filter rejects it. */
  method FilterRow(filled: Row, f: Option<Filter>, filterResults: bool)
    returns (formatted: Row, kept: seq<Row>)
    requires filterResults ==> f.Some?
    ensures formatted == Formatted(filled)
    ensures kept == if Keep(formatted, if filterResults then f else None) then [formatted] else []
  {
    var names;
    formatted, names := FormatFieldNames(filled);
    kept := [];
    if filterResults {
      var filterKey := DisplayName(f.value.column);
      if filterKey in formatted && Contains(Show(formatted[filterKey]), f.value.value) {
        kept := [formatted];
      }
    } else {
      kept := [formatted];
    }
  }

  lemma DisplayNamesStep(keys: seq<string>, i: nat)
    requires i < |keys|
    ensures DisplayNames(keys[..i + 1]) == DisplayNames(keys[..i]) + [DisplayName(keys[i])]
  {
  }

  /** The header loop of `tabulate_dictionary`: one display name per key, in
      the order given. */
  method Header(sorted: seq<string>) returns (header: seq<string>)
    ensures header == DisplayNames(sorted)
  {
    header := [];
    for i := 0 to |sorted|
      invariant header == DisplayNames(sorted[..i])
    {
      DisplayNamesStep(sorted, i);
      header := header + [DisplayName(sorted[i])];
    }
    assert sorted[..|sorted|] == sorted;
  }

  /** One pass of the row loop of `tabulate_dictionary`, on `data[i]`: fill
      it in place, format it, and keep it unless the filter rejects it.
      `target` and `all` are the filled and the formatted objects the whole
      loop produces. */
  method RowPass(data: array<Row>, i: nat, keys: set<string>, f: Option<Filter>, filterResults: bool,
                 ghost objs: seq<Row>, ghost target: seq<Row>, ghost all: seq<Row>)
    returns (kept: seq<Row>)
    requires filterResults ==> f.Some?
    requires i < data.Length == |objs|
    requires data[i] == objs[i]
    requires target == FilledAll(objs, keys) && all == Formats(objs, keys)
    modifies data
    ensures data[i] == target[i]
    ensures forall j :: 0 <= j < data.Length && j != i ==> data[j] == old(data[j])
    ensures kept == if Keep(all[i], if filterResults then f else None) then [all[i]] else []
  {
    var filled := FillMissing(data[i], keys);
    FilledDetermined(data[i], keys, filled);
    FilledAllAt(objs, keys, i);
    data[i] := filled;
    var formatted;
    formatted, kept := FilterRow(filled, f, filterResults);
    FormatsAt(objs, keys, i);
  }

  /** The row loop of `tabulate_dictionary`: fills each object in place and
      collects the formatted objects the filter keeps. */
  method FillAndSelect(data: array<Row>, keys: set<string>, f: Option<Filter>, filterResults: bool)
    returns (rows: seq<Row>)
    requires filterResults ==> f.Some?
    modifies data
    ensures data[..] == FilledAll(old(data[..]), keys)
    ensures rows == Select(Formats(old(data[..]), keys), if filterResults then f else None)
  {
    ghost var objs := data[..];
    ghost var effective := if filterResults then f else None;
    ghost var target := FilledAll(objs, keys);
    ghost var all := Formats(objs, keys);
    rows := [];
    for i := 0 to data.Length
      invariant forall j :: 0 <= j < i ==> data[j] == target[j]
      invariant forall j :: i <= j < data.Length ==> data[j] == objs[j]
      invariant rows == Select(all[..i], effective)
    {
      var kept := RowPass(data, i, keys, f, filterResults, objs, target, all);
      SelectStep(all, effective, i);
      rows := rows + kept;
    }
    assert all[..data.Length] == all;
    assert data[..] == target;
  }

  /** `tabulate_dictionary(data, filter)`: fills every object in place with
      the keys it lacks, and builds the header and the surviving rows; None
      where `from_json` raises on a repeated column name, after the objects
      were filled and the diagnostic printed. */
  method TabulateDictionary(data: array<Row>, f: Option<Filter>) returns (table: Option<Table>, printed: seq<string>)
    modifies data
    ensures data[..] == FilledAll(old(data[..]), AllKeys(old(data[..])))
    ensures table.Some? <==> Tabulable(old(data[..]))
    ensures table.Some? ==> table.value == DictionaryTable(old(data[..]), f)
    ensures printed == FilterDiagnostics(old(data[..]), f)
  {
    var keys := AllKeys(data[..]);

    var filterResults := false;
    printed := [];
    if f.Some? {
      if FilterKey(f.value) in keys {
        filterResults := true;
      } else {
        printed := [NotAColumn(DisplayName(f.value.column))];
      }
    }

    var header := Header(SortedKeys(keys));
    var rows := FillAndSelect(data, keys, f, filterResults);
    if UniqueNames(header) {
      table := Some(Table(header, rows, None, false));
    } else {
      table := None;
    }
  }

  /** The table `tabulate_list(data)` builds from a single object: one
      column per distinct display name, in sorted raw-key order, and the one
      row that the first `add_column` creates; an empty object gets no
      column and so no row. */
  function ListTable(obj: Row): Table
  {
    Table(FirstNames(DisplayNames(SortedKeys(obj.Keys))), if |obj| == 0 then [] else [Formatted(obj)], None, false)
  }

  /** The row after `add_column` of the first i names: each name holds
      its formatted value. */
  function ColumnsAdded(formatted: Row, names: seq<string>, i: nat): seq<Row>
    requires i <= |names| && forall n :: n in names ==> n in formatted
  {
    if i == 0 then [] else [map n | n in names[..i] :: formatted[n]]
  }

  /** One more `add_column`: the first one creates the row, the later ones
      add a cell to it. */
  lemma ColumnsAddedStep(formatted: Row, names: seq<string>, i: nat)
    requires i < |names| && forall n :: n in names ==> n in formatted
    ensures ColumnsAdded(formatted, names, i + 1) ==
      [(if i == 0 then map[] else ColumnsAdded(formatted, names, i)[0])[names[i] := formatted[names[i]]]]
  {
    var before: Row := if i == 0 then map[] else ColumnsAdded(formatted, names, i)[0];
    var after := map n | n in names[..i + 1] :: formatted[n];
    assert names[..i + 1] == names[..i] + [names[i]];
    assert before == map n | n in names[..i] :: formatted[n];
    assert after.Keys == before.Keys + {names[i]};
    assert after == before[names[i] := formatted[names[i]]];
  }

  /** After every name is added, the row is the formatted object. */
  lemma ColumnsAddedAll(formatted: Row, names: seq<string>)
    requires names != [] && forall n :: n in names <==> n in formatted
    ensures ColumnsAdded(formatted, names, |names|) == [formatted]
  {
    assert names[..|names|] == names;
    var row := map n | n in names :: formatted[n];
    assert row.Keys == formatted.Keys;
    assert row == formatted;
  }

  /** `tabulate_list(data)`: one `add_column(name, [value])` per entry of the
      formatted object, in its key order. */
  method TabulateList(obj: Row) returns (table: Table)
    ensures table == ListTable(obj)
    ensures |obj| == 0 ==> table.header == [] && table.rows == []
    ensures |obj| > 0 ==> |table.rows| == 1 && forall n :: n in table.header <==> n in table.rows[0]
  {
    var formatted, names := FormatFieldNames(obj);
    var header := [];
    var rows: seq<Row> := [];
    for i := 0 to |names|
      invariant header == names[..i]
      invariant rows == ColumnsAdded(formatted, names, i)
    {
      var row: Row := if i == 0 then map[] else rows[0];
      ColumnsAddedStep(formatted, names, i);
      rows := [row[names[i] := formatted[names[i]]]];
      header := header + [names[i]];
    }
    assert names[..|names|] == names;
    ListTableColumns(obj);
    if names != [] {
      ColumnsAddedAll(formatted, names);
    }
    table := Table(header, rows, None, false);
  }

  /** `tabulate(data, filter)`: a list goes to tabulate_dictionary, a single
      object to tabulate_list, which ignores the filter. */
  method Tabulate(data: Data, f: Option<Filter>) returns (table: Option<Table>, printed: seq<string>)
    modifies if data.Many? then {data.objects} else {}
    ensures data.Many? ==> (table.Some? <==> Tabulable(old(data.objects[..])))
    ensures data.Many? && table.Some? ==> table.value == DictionaryTable(old(data.objects[..]), f)
    ensures data.Many? ==> printed == FilterDiagnostics(old(data.objects[..]), f)
    ensures data.Many? ==> data.objects[..] == FilledAll(old(data.objects[..]), AllKeys(old(data.objects[..])))
    ensures data.One? ==> table == Some(ListTable(data.obj)) && printed == []
  {
    match data
    case Many(objects) =>
      table, printed := TabulateDictionary(objects, f);
    case One(obj) =>
      var t := TabulateList(obj);
      table := Some(t);
      printed := [];
  }

  // ---------------------------------------------------------------------
  // Properties of the rendered tables

  /** After tabulation every object has every key of the union: the keys it
      had keep their values and the others hold the placeholder. */
  lemma FilledHasEveryKey(objs: seq<Row>, i: nat)
    requires i < |objs|
    ensures var keys := AllKeys(objs);
      && Filled(objs[i], keys).Keys == keys
      && (forall k :: k in objs[i] ==> Filled(objs[i], keys)[k] == objs[i][k])
      && (forall k :: k in keys && k !in objs[i] ==> Filled(objs[i], keys)[k] == Placeholder)
  {
  }

  /** The header of a multi-row table names, in order, the sorted union of
      the objects' keys. */
  lemma DictionaryHeader(objs: seq<Row>, f: Option<Filter>)
    ensures var t := DictionaryTable(objs, f);
      var ks := SortedKeys(AllKeys(objs));
      && |t.header| == |ks|
      && (forall i :: 0 <= i < |ks| ==> t.header[i] == DisplayName(ks[i]))
      && (forall i, j :: 0 <= i < j < |ks| ==> Less(ks[i], ks[j]))
      && (forall k :: k in ks <==> exists i :: 0 <= i < |objs| && k in objs[i])
  {
    SortedComplete(AllKeys(objs));
    SortedIncreasing(AllKeys(objs));
  }

  /** Every formatted object of a multi-row table has one column per display
      name of the key union. */
  lemma FormatsColumns(objs: seq<Row>, i: nat)
    requires i < |objs|
    ensures Formats(objs, AllKeys(objs))[i].Keys == set k | k in AllKeys(objs) :: DisplayName(k)
  {
    var keys := AllKeys(objs);
    FormatsAt(objs, keys, i);
    var filled := Filled(objs[i], keys);
    assert filled.Keys == keys;
    FormattedKeys(filled);
  }

  /** The table is rectangular: every row has a cell under every column of
      the header. */
  lemma DictionaryRectangular(objs: seq<Row>, f: Option<Filter>)
    ensures var t := DictionaryTable(objs, f);
      forall r, n :: r in t.rows && n in t.header ==> n in r
  {
    var keys := AllKeys(objs);
    var t := DictionaryTable(objs, f);
    var all := Formats(objs, keys);
    var ks := SortedKeys(keys);
    SelectFrom(all, if FilterKnown(objs, f) then f else None);
    forall r, n | r in t.rows && n in t.header
      ensures n in r
    {
      var i :| 0 <= i < |all| && all[i] == r;
      FormatsColumns(objs, i);
      InDisplayNames(ks, n);
      var j :| 0 <= j < |ks| && DisplayName(ks[j]) == n;
      assert ks[j] in keys;
    }
  }

  /** Without a filter, or with one that names no column, every object
      becomes a row, in order; only the unknown column is reported, once. */
  lemma UnfilteredKeepsAll(objs: seq<Row>, f: Option<Filter>)
    requires !FilterKnown(objs, f)
    ensures DictionaryTable(objs, f).rows == Formats(objs, AllKeys(objs))
    ensures f.None? ==> FilterDiagnostics(objs, f) == []
    ensures f.Some? ==> FilterDiagnostics(objs, f) == ["[" + DisplayName(f.value.column) + "] isn't a column"]
  {
    SelectNone(Formats(objs, AllKeys(objs)));
  }

  /** With a known column, the rows are exactly those whose cell under that
      column contains the value, as a subsequence of the objects in their
      original order; nothing is reported. */
  lemma KnownFilterSelects(objs: seq<Row>, f: Filter)
    requires FilterKnown(objs, Some(f))
    ensures FilterDiagnostics(objs, Some(f)) == []
    ensures var all := Formats(objs, AllKeys(objs));
      var rows := DictionaryTable(objs, Some(f)).rows;
      var idx := KeptIndices(all, Some(f));
      && |idx| == |rows|
      && (forall j :: 0 <= j < |idx| ==> idx[j] < |objs| && rows[j] == all[idx[j]])
      && (forall j1, j2 :: 0 <= j1 < j2 < |idx| ==> idx[j1] < idx[j2])
      && (forall i :: 0 <= i < |objs| ==>
            DisplayName(f.column) in all[i] &&
            (i in idx <==> Contains(Show(all[i][DisplayName(f.column)]), f.value)))
  {
    var keys := AllKeys(objs);
    var all := Formats(objs, keys);
    SelectSubsequence(all, Some(f));
    FilterKeyDisplayName(f);
    forall i | 0 <= i < |objs|
      ensures DisplayName(f.column) in all[i]
    {
      FormatsAt(objs, keys, i);
      FormattedKeys(Filled(objs[i], keys));
      assert FilterKey(f) in Filled(objs[i], keys);
    }
  }

  /** A name is among the display names of some keys exactly when one of
      the keys has it. */
  lemma InDisplayNames(keys: seq<string>, n: string)
    ensures n in DisplayNames(keys) <==> exists i :: 0 <= i < |keys| && DisplayName(keys[i]) == n
  {
    if exists i :: 0 <= i < |keys| && DisplayName(keys[i]) == n {
      var i :| 0 <= i < |keys| && DisplayName(keys[i]) == n;
      assert DisplayNames(keys)[i] == n;
    }
  }

  /** The column names of the single-row table are exactly the keys of its
      one row. */
  lemma ListNamesAreColumns(obj: Row, n: string)
    ensures n in FirstNames(DisplayNames(SortedKeys(obj.Keys))) <==> n in Formatted(obj)
  {
    var ks := SortedKeys(obj.Keys);
    SortedComplete(obj.Keys);
    FirstNamesShape(DisplayNames(ks));
    FormattedKeys(obj);
    InDisplayNames(ks, n);
    if n in Formatted(obj) {
      var k :| k in obj && DisplayName(k) == n;
      var i :| 0 <= i < |ks| && ks[i] == k;
      assert DisplayName(ks[i]) == n;
    }
  }

  /** A non-empty object gives one row whose columns are its distinct
      display names; when no two keys share a display name they are the
      keys' display names in sorted raw-key order.  The empty object gives
      no column and no row. */
  lemma ListTableColumns(obj: Row)
    ensures var t := ListTable(obj);
      && (|obj| == 0 <==> t.header == [])
      && |t.rows| == (if |obj| == 0 then 0 else 1)
      && UniqueNames(t.header)
      && (|obj| > 0 ==> forall n :: n in t.header <==> n in t.rows[0])
    ensures (forall k1, k2 :: k1 in obj && k2 in obj && k1 != k2 ==> DisplayName(k1) != DisplayName(k2)) ==>
      ListTable(obj).header == DisplayNames(SortedKeys(obj.Keys))
  {
    var ks := SortedKeys(obj.Keys);
    var names := DisplayNames(ks);
    FirstNamesShape(names);
    forall n
      ensures n in FirstNames(names) <==> n in Formatted(obj)
    {
      ListNamesAreColumns(obj, n);
    }
    FormattedKeys(obj);
    if |obj| > 0 {
      var k :| k in obj;
      assert DisplayName(k) in FirstNames(names);
    }
    if forall k1, k2 :: k1 in obj && k2 in obj && k1 != k2 ==> DisplayName(k1) != DisplayName(k2) {
      SortedIncreasing(obj.Keys);
      SortedDistinct(ks);
      forall i, j | 0 <= i < j < |names|
        ensures names[i] != names[j]
      {
        assert ks[i] != ks[j];
      }
    }
  }

  /** The display names of sorted keys repeat no name exactly when no two
      of the keys share a display name. */
  predicate NamesApart(keys: set<string>)
  {
    forall k1, k2 :: k1 in keys && k2 in keys && k1 != k2 ==> DisplayName(k1) != DisplayName(k2)
  }

  lemma UniqueNamesApart(keys: set<string>)
    requires UniqueNames(DisplayNames(SortedKeys(keys)))
    ensures NamesApart(keys)
  {
    var ks := SortedKeys(keys);
    SortedComplete(keys);
    forall k1, k2 | k1 in keys && k2 in keys && k1 != k2
      ensures DisplayName(k1) != DisplayName(k2)
    {
      var i :| 0 <= i < |ks| && ks[i] == k1;
      var j :| 0 <= j < |ks| && ks[j] == k2;
      assert DisplayNames(ks)[i] == DisplayName(k1) && DisplayNames(ks)[j] == DisplayName(k2);
    }
  }

  lemma ApartUniqueNames(keys: set<string>)
    requires NamesApart(keys)
    ensures UniqueNames(DisplayNames(SortedKeys(keys)))
  {
    var ks := SortedKeys(keys);
    SortedIncreasing(keys);
    SortedDistinct(ks);
    forall i, j | 0 <= i < j < |ks|
      ensures DisplayNames(ks)[i] != DisplayNames(ks)[j]
    {
      assert ks[i] != ks[j] && ks[i] in keys && ks[j] in keys;
    }
  }

  /** `from_json` accepts the header exactly when no two keys of the union
      share a display name. */
  lemma TabulableIff(objs: seq<Row>)
    ensures Tabulable(objs) <==>
      forall k1, k2 :: k1 in AllKeys(objs) && k2 in AllKeys(objs) && k1 != k2 ==> DisplayName(k1) != DisplayName(k2)
  {
    if Tabulable(objs) {
      UniqueNamesApart(AllKeys(objs));
    } else if NamesApart(AllKeys(objs)) {
      ApartUniqueNames(AllKeys(objs));
    }
  }

  /** Objects with the keys `size` and `Size` cannot be tabulated: both are
      displayed as `Size`. */
  lemma SizeClash(o1: Row, o2: Row)
    requires o1.Keys == {"size"} && o2.Keys == {"Size"}
    ensures !Tabulable([o1, o2])
  {
    assert [o1, o2][0] == o1 && [o1, o2][1] == o2;
    assert "size" in AllKeys([o1, o2]) && "Size" in AllKeys([o1, o2]);
    SizeName();
    assert Replace("Size", '_', ' ') == "Size";
    TitlePointwise("Size");
    assert DisplayName("Size") == "Size";
    assert "size" != "Size" by { assert "size"[0] != "Size"[0]; }
    TabulableIff([o1, o2]);
  }

  /** Three strings in increasing order are the only increasing listing of
      the set they form. */
  lemma SortedThree(x: string, y: string, z: string)
    requires Less(x, y) && Less(y, z)
    ensures SortedKeys({x, y, z}) == [x, y, z]
  {
    var s := {x, y, z};
    LessTransitive(x, y, z);
    LessIrreflexive(x);
    LessIrreflexive(y);
    LessAsymmetric(x, y);
    LessAsymmetric(y, z);
    LessAsymmetric(x, z);
    assert |s| == 3;
    var r := SortedKeys(s);
    SortedComplete(s);
    SortedIncreasing(s);
    assert Less(r[0], r[1]) && Less(r[1], r[2]) && Less(r[0], r[2]);
  }

  /** A one-letter lower-case key is displayed as that letter in upper case. */
  lemma LetterDisplayName(c: char)
    requires IsLower(c)
    ensures DisplayName([c]) == [Upper(c)]
  {
    TitleAt(Replace([c], '_', ' '), 0);
  }

  lemma OverlappingKeysUnion(o1: Row, o2: Row)
    requires o1.Keys == {"a", "b"} && o2.Keys == {"b", "c"}
    ensures AllKeys([o1, o2]) == {"a", "b", "c"}
  {
    assert [o1, o2][0] == o1 && [o1, o2][1] == o2;
  }

  /** Two objects with keys {a, b} and {b, c} give the columns A, B, C in that
      order (DictionaryTable's header is DisplayNames(SortedKeys(AllKeys(objs)))). */
  lemma OverlappingKeysHeader(o1: Row, o2: Row)
    requires o1.Keys == {"a", "b"} && o2.Keys == {"b", "c"}
    ensures DisplayNames(SortedKeys(AllKeys([o1, o2]))) == ["A", "B", "C"]
  {
    OverlappingKeysUnion(o1, o2);
    assert Less("a", "b") && Less("b", "c");
    SortedThree("a", "b", "c");
    AbcNames();
  }

  /** The keys a, b and c are displayed as A, B and C. */
  lemma AbcNames()
    ensures DisplayNames(["a", "b", "c"]) == ["A", "B", "C"]
  {
    LetterDisplayName('a');
    LetterDisplayName('b');
    LetterDisplayName('c');
  }

  /** With the values {a: 1, b: 2} and {b: 3, c: 4}, each object's missing key
      is filled with the placeholder and nothing else changes. */
  lemma OverlappingKeysFilled(o1: Row, o2: Row)
    requires o1 == map["a" := Str("1"), "b" := Str("2")]
    requires o2 == map["b" := Str("3"), "c" := Str("4")]
    ensures FilledAll([o1, o2], AllKeys([o1, o2])) ==
      [map["a" := Str("1"), "b" := Str("2"), "c" := Placeholder],
       map["a" := Placeholder, "b" := Str("3"), "c" := Str("4")]]
  {
    OverlappingKeysUnion(o1, o2);
    var keys := AllKeys([o1, o2]);
    FilledAllAt([o1, o2], keys, 0);
    FilledAllAt([o1, o2], keys, 1);
    FilledDetermined(o1, keys, map["a" := Str("1"), "b" := Str("2"), "c" := Placeholder]);
    FilledDetermined(o2, keys, map["a" := Placeholder, "b" := Str("3"), "c" := Str("4")]);
  }

  /** The key `size` is displayed as `Size`. */
  lemma SizeName()
    ensures DisplayName("size") == "Size"
  {
    assert Replace("size", '_', ' ') == "size";
    TitlePointwise("size");
  }

  /** The filter `size 10` keeps the row whose size is "100" and drops
      those whose sizes are "205" and "3": the test is a substring test,
      not equality and not a numeric comparison. */
  lemma SubstringFilter(r1: Row, r2: Row, r3: Row)
    requires r1 == map["Size" := Str("100")]
    requires r2 == map["Size" := Str("205")]
    requires r3 == map["Size" := Str("3")]
    ensures Select([r1, r2, r3], Some(Filter("size", "10"))) == [r1]
  {
    var f := Some(Filter("size", "10"));
    SizeName();
    assert "100"[..2] == "10";
    assert Keep(r1, f);
    assert !Contains("205", "10") by {
      assert "205"[..2] != "10" by { assert "205"[..2][0] == '2'; }
      assert "205"[1..] == "05" && "05"[..2] != "10" by { assert "05"[..2][0] == '0'; }
      assert "05"[1..] == "5" && "5"[1..] == "";
    }
    assert !Keep(r2, f);
    assert !Contains("3", "10") by {
      assert "3"[1..] == "";
    }
    assert !Keep(r3, f);
    var rows := [r1, r2, r3];
    SelectStep(rows, f, 0);
    SelectStep(rows, f, 1);
    SelectStep(rows, f, 2);
    assert rows[..0] == [] && rows[..1] == [r1] && rows[..2] == [r1, r2] && rows[..3] == rows;
  }
}
