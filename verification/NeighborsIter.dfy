/** Rows and property lookup over the answer of a neighbour request. */
module NeighborsIter {
  import opened Wrappers

  datatype Value = List(values: seq<Value>) | Atom(id: int) | Empty | BadType | Null

  type Row = seq<Value>

  datatype DataSet = DataSet(header: seq<string>, rows: seq<Row>)

  /** What storage answers: a list, whose items should be data sets, or some other value. */
  datatype Answer = NotList | Items(items: seq<Option<DataSet>>)

  // ---- Column names ----

  predicate StartsWith(s: string, prefix: string) {
    |prefix| <= |s| && s[..|prefix|] == prefix
  }

  predicate IsTag(col: string) {
    StartsWith(col, "_tag")
  }

  predicate IsEdge(col: string) {
    !IsTag(col) && StartsWith(col, "_edge")
  }

  /** The pieces of a name between its colons. */
  function Split(s: string): (pieces: seq<string>)
    ensures |pieces| >= 1
  {
    if s == [] then [[]]
    else
      var rest := Split(s[1..]);
      if s[0] == ':' then [[]] + rest else [[s[0]] + rest[0]] + rest[1..]
  }

  function JoinWithColons(pieces: seq<string>): string {
    if pieces == [] then [] else if |pieces| == 1 then pieces[0] else pieces[0] + ":" + JoinWithColons(pieces[1..])
  }

  /** The pieces have no colon and make up the name. */
  lemma {:induction false} SplitJoins(s: string)
    ensures JoinWithColons(Split(s)) == s
    ensures forall i :: 0 <= i < |Split(s)| ==> ':' !in Split(s)[i]
    decreases |s|
  {
    if s != [] {
      SplitJoins(s[1..]);
      var rest := Split(s[1..]);
      assert s == [s[0]] + s[1..];
      if s[0] == ':' {
        assert Split(s)[1..] == rest;
      } else {
        assert Split(s)[1..] == rest[1..];
      }
    }
  }

  predicate BadColumns(header: seq<string>) {
    || |header| < 3 || header[0] != "_vid"
    || !StartsWith(header[1], "_stats") || !StartsWith(header[|header| - 1], "_expr")
  }

  /** A tag or edge column names its tag or edge, and an edge name starts with a sign. */
  predicate GoodName(col: string) {
    (IsTag(col) || IsEdge(col)) ==>
      var pieces := Split(col);
      |pieces| >= 2 && (IsEdge(col) ==> pieces[1] != [] && (pieces[1][0] == '+' || pieces[1][0] == '-'))
  }

  predicate GoodHeader(header: seq<string>) {
    !BadColumns(header) && forall i :: 0 <= i < |header| ==> GoodName(header[i])
  }

  // ---- Linear search ----

  /** Column `i` is a tag (or edge) column for `name`. */
  predicate ColumnFor(col: string, edge: bool, name: string) {
    (if edge then IsEdge(col) else IsTag(col)) && |Split(col)| >= 2 && Split(col)[1] == name
  }

  predicate FirstColumn(header: seq<string>, edge: bool, name: string, i: nat) {
    i < |header| && ColumnFor(header[i], edge, name) && forall j :: 0 <= j < i ==> !ColumnFor(header[j], edge, name)
  }

  ghost predicate NoColumn(header: seq<string>, edge: bool, name: string) {
    forall j :: 0 <= j < |header| ==> !ColumnFor(header[j], edge, name)
  }

  predicate FirstProp(col: string, prop: string, k: nat) {
    k + 2 < |Split(col)| && Split(col)[k + 2] == prop && forall j :: 2 <= j < k + 2 ==> Split(col)[j] != prop
  }

  ghost predicate NoProp(col: string, prop: string) {
    forall j :: 2 <= j < |Split(col)| ==> Split(col)[j] != prop
  }

  // ---- The index ----

  datatype PropIndex = PropIndex(colIdx: nat, propIndices: map<string, nat>)

  datatype DataSetIndex = DataSetIndex(
    edgeStart: Option<nat>,
    names: map<nat, string>,
    tagProps: map<string, PropIndex>,
    edgeProps: map<string, PropIndex>)

  ghost predicate PropsIndexed(col: string, props: map<string, nat>) {
    forall prop :: if prop in props then FirstProp(col, prop, props[prop]) else NoProp(col, prop)
  }

  ghost predicate NameIndexed(header: seq<string>, upto: nat, edge: bool, index: map<string, PropIndex>, name: string)
    requires upto <= |header|
  {
    if name in index then
      FirstColumn(header[..upto], edge, name, index[name].colIdx) &&
        PropsIndexed(header[index[name].colIdx], index[name].propIndices)
    else NoColumn(header[..upto], edge, name)
  }

  ghost predicate NamesIndexed(header: seq<string>, upto: nat, edge: bool, index: map<string, PropIndex>)
    requires upto <= |header|
  {
    forall name :: NameIndexed(header, upto, edge, index, name)
  }

  /** The name of each tag or edge column. */
  ghost predicate ColumnNames(header: seq<string>, upto: nat, names: map<nat, string>)
    requires upto <= |header|
  {
    && (forall i: nat :: i in names <==> i < upto && (IsTag(header[i]) || IsEdge(header[i])))
    && (forall i: nat :: i in names ==> |Split(header[i])| >= 2 && names[i] == Split(header[i])[1])
  }

  predicate FirstEdge(header: seq<string>, upto: nat, start: Option<nat>)
    requires upto <= |header|
  {
    match start
    case None => forall i :: 0 <= i < upto ==> !IsEdge(header[i])
    case Some(s) => s < upto && IsEdge(header[s]) && forall i :: 0 <= i < s ==> !IsEdge(header[i])
  }

  /** The index answers as a search of the first `upto` columns would. */
  ghost predicate Indexed(header: seq<string>, upto: nat, index: DataSetIndex)
    requires upto <= |header|
  {
    && NamesIndexed(header, upto, false, index.tagProps)
    && NamesIndexed(header, upto, true, index.edgeProps)
    && ColumnNames(header, upto, index.names)
    && FirstEdge(header, upto, index.edgeStart)
  }

  lemma ColumnNamesStep(header: seq<string>, i: nat, names: map<nat, string>)
    requires i < |header| && ColumnNames(header, i, names) && GoodName(header[i])
    ensures
      var named := IsTag(header[i]) || IsEdge(header[i]);
      ColumnNames(header, i + 1, if named then names[i := Split(header[i])[1]] else names)
  {
  }

  method PropsOf(col: string) returns (props: map<string, nat>)
    ensures PropsIndexed(col, props)
  {
    var pieces := Split(col);
    props := map[];
    for i := 2 to if |pieces| < 2 then 2 else |pieces|
      invariant forall prop ::
        if prop in props then props[prop] + 2 < i && props[prop] + 2 < |pieces| && FirstProp(col, prop, props[prop])
        else forall j :: 2 <= j < i && j < |pieces| ==> pieces[j] != prop
    {
      if pieces[i] !in props {
        props := props[pieces[i] := i - 2];
      }
    }
  }

  lemma NameStep(header: seq<string>, i: nat, edge: bool, index: map<string, PropIndex>, name: string)
    requires i < |header| && NameIndexed(header, i, edge, index, name) && !ColumnFor(header[i], edge, name)
    ensures NameIndexed(header, i + 1, edge, index, name)
  {
    var before, after := header[..i], header[..i + 1];
    assert forall j :: 0 <= j < i ==> before[j] == after[j];
  }

  lemma NameAdded(header: seq<string>, i: nat, edge: bool, index: map<string, PropIndex>, name: string,
                  props: map<string, nat>)
    requires i < |header| && NameIndexed(header, i, edge, index, name) && ColumnFor(header[i], edge, name) &&
      PropsIndexed(header[i], props)
    ensures NameIndexed(header, i + 1, edge, if name in index then index else index[name := PropIndex(i, props)], name)
  {
    var before, after := header[..i], header[..i + 1];
    assert forall j :: 0 <= j < i ==> before[j] == after[j];
  }

  /** One column's entries; an entry that exists is not replaced. */
  method AddColumn(header: seq<string>, i: nat, edge: bool, index: map<string, PropIndex>)
    returns (out: map<string, PropIndex>)
    requires i < |header| && (if edge then IsEdge(header[i]) else IsTag(header[i])) && |Split(header[i])| >= 2
    requires NamesIndexed(header, i, edge, index)
    ensures NamesIndexed(header, i + 1, edge, out)
  {
    var props := PropsOf(header[i]);
    var name := Split(header[i])[1];
    out := if name in index then index else index[name := PropIndex(i, props)];
    var next := i + 1;
    forall other ensures NameIndexed(header, next, edge, out, other) {
      assert NameIndexed(header, i, edge, index, other);
      if other == name {
        NameAdded(header, i, edge, index, name, props);
      } else {
        NameStep(header, i, edge, index, other);
        assert NameIndexed(header, i + 1, edge, out, other);
      }
    }
  }

  lemma OtherColumn(header: seq<string>, i: nat, edge: bool, index: map<string, PropIndex>)
    requires i < |header| && !(if edge then IsEdge(header[i]) else IsTag(header[i]))
    requires NamesIndexed(header, i, edge, index)
    ensures NamesIndexed(header, i + 1, edge, index)
  {
    var next := i + 1;
    forall name ensures NameIndexed(header, next, edge, index, name) {
      NameStep(header, i, edge, index, name);
    }
  }

  lemma NothingIndexed(header: seq<string>)
    ensures Indexed(header, 0, DataSetIndex(None, map[], map[], map[]))
  {
    assert header[..0] == [];
  }

  lemma NamedColumn(col: string)
    requires GoodName(col) && (IsTag(col) || IsEdge(col))
    ensures |Split(col)| >= 2
  {
  }

  /** GetNeighborsIter::buildIndex. Fails exactly on a bad header. */
  method BuildIndex(header: seq<string>) returns (r: Option<DataSetIndex>)
    ensures r.None? <==> !GoodHeader(header)
    ensures r.Some? ==> Indexed(header, |header|, r.value)
  {
    hide NamesIndexed, ColumnNames, PropsIndexed, Split, StartsWith, BadColumns;
    if BadColumns(header) {
      return None;
    }
    NothingIndexed(header);
    var index := DataSetIndex(None, map[], map[], map[]);
    for i := 0 to |header|
      invariant forall j :: 0 <= j < i ==> GoodName(header[j])
      invariant Indexed(header, i, index)
    {
      if !GoodName(header[i]) {
        return None;
      }
      ColumnNamesStep(header, i, index.names);
      if IsTag(header[i]) {
        NamedColumn(header[i]);
        var tags := AddColumn(header, i, false, index.tagProps);
        OtherColumn(header, i, true, index.edgeProps);
        index := index.(tagProps := tags, names := index.names[i := Split(header[i])[1]]);
      } else if IsEdge(header[i]) {
        NamedColumn(header[i]);
        var edges := AddColumn(header, i, true, index.edgeProps);
        OtherColumn(header, i, false, index.tagProps);
        index := index.(edgeProps := edges, names := index.names[i := Split(header[i])[1]]);
        if index.edgeStart.None? {
          index := index.(edgeStart := Some(i));
        }
      } else {
        OtherColumn(header, i, true, index.edgeProps);
        OtherColumn(header, i, false, index.tagProps);
      }
    }
    r := Some(index);
  }

  // ---- Logical rows ----

  /** Where an edge is in its row: the column, and the entry of the cell's list. */
  datatype Place = Place(column: nat, entry: nat)

  /** GetNbrLogicalRow: a data set, a row of it, and an edge of that row with the name of its column. */
  datatype LogicalRow = LogicalRow(ds: nat, row: nat, edgeName: string, edge: Option<Place>)

  /** The entry is a list in a list-valued cell of an edge column. */
  predicate EdgeAt(d: DataSet, row: nat, column: nat, entry: nat) {
    && row < |d.rows| && column < |d.rows[row]| && column < |d.header| && IsEdge(d.header[column])
    && d.rows[row][column].List? && entry < |d.rows[row][column].values|
    && d.rows[row][column].values[entry].List?
  }

  predicate EdgeOf(d: DataSet, l: LogicalRow) {
    && l.edge.Some? && EdgeAt(d, l.row, l.edge.value.column, l.edge.value.entry)
    && |Split(d.header[l.edge.value.column])| >= 2 && l.edgeName == Split(d.header[l.edge.value.column])[1]
  }

  predicate HasEdges(d: DataSet) {
    exists i :: 0 <= i < |d.header| && IsEdge(d.header[i])
  }

  predicate RowOf(d: DataSet, l: LogicalRow) {
    l.row < |d.rows| && l.edgeName == "" && l.edge.None?
  }

  /** The logical rows of a data set: its edges, or its rows when it has no edge column. */
  predicate Shown(d: DataSet, l: LogicalRow) {
    if HasEdges(d) then EdgeOf(d, l) else RowOf(d, l)
  }

  /** The rows of a data set with edge columns that hold no edge. */
  ghost predicate Bare(d: DataSet, l: LogicalRow) {
    HasEdges(d) && RowOf(d, l) && forall column: nat, entry: nat :: !EdgeAt(d, l.row, column, entry)
  }

  predicate PlaceBefore(p: Place, q: Place) {
    p.column < q.column || (p.column == q.column && p.entry < q.entry)
  }

  /** By data set, row, column and entry. */
  predicate Before(l: LogicalRow, m: LogicalRow) {
    || l.ds < m.ds
    || (l.ds == m.ds && l.row < m.row)
    || (l.ds == m.ds && l.row == m.row && l.edge.Some? && m.edge.Some? && PlaceBefore(l.edge.value, m.edge.value))
  }

  predicate Ordered(rows: seq<LogicalRow>) {
    forall i, j :: 0 <= i < j < |rows| ==> Before(rows[i], rows[j])
  }

  /** A sequence in this order is determined by its members. */
  lemma {:induction false} OrderedUnique(s: seq<LogicalRow>, t: seq<LogicalRow>)
    requires Ordered(s) && Ordered(t) && (forall l :: l in s <==> l in t)
    ensures s == t
    decreases |s|
  {
    FirstIn(s);
    FirstIn(t);
    if s != [] {
      FirstIsLeast(s, t[0]);
      FirstIsLeast(t, s[0]);
      forall l ensures l in s[1..] <==> l in t[1..] {
        RestOf(s, l);
        RestOf(t, l);
      }
      OrderedUnique(s[1..], t[1..]);
      assert s == [s[0]] + s[1..] && t == [t[0]] + t[1..];
    }
  }

  lemma FirstIn(s: seq<LogicalRow>)
    ensures s != [] ==> s[0] in s
  {
  }

  lemma FirstIsLeast(s: seq<LogicalRow>, l: LogicalRow)
    requires Ordered(s) && l in s
    ensures l == s[0] || Before(s[0], l)
  {
  }

  lemma RestOf(s: seq<LogicalRow>, l: LogicalRow)
    requires Ordered(s) && s != []
    ensures l in s[1..] <==> l in s && l != s[0]
  {
    if l in s && l != s[0] {
      var i :| 0 <= i < |s| && s[i] == l;
      assert s[1..][i - 1] == l;
    }
  }

  lemma OrderedAppend(s: seq<LogicalRow>, t: seq<LogicalRow>)
    requires Ordered(s) && Ordered(t) && forall l, m :: l in s && m in t ==> Before(l, m)
    ensures Ordered(s + t)
  {
    var u := s + t;
    forall i, j | 0 <= i < j < |u| ensures Before(u[i], u[j]) {
      if i < |s| {
        assert u[i] in s;
        assert j >= |s| ==> u[j] in t;
      }
    }
  }

  /** `found` lists in order the edges of a row in the columns before `column`, and there those before `entry`. */
  ghost predicate RowUpto(found: seq<LogicalRow>, ds: nat, d: DataSet, row: nat, column: nat, entry: nat) {
    && Ordered(found)
    && forall l :: l in found <==>
      l.ds == ds && l.row == row && EdgeOf(d, l) && PlaceBefore(l.edge.value, Place(column, entry))
  }

  /** `found` lists in order the edges of the rows before `row`. */
  ghost predicate EdgesUpto(found: seq<LogicalRow>, ds: nat, d: DataSet, row: nat) {
    Ordered(found) && forall l :: l in found <==> l.ds == ds && l.row < row && EdgeOf(d, l)
  }

  /** `rows` lists in order the rows before `row` that hold no edge. */
  ghost predicate BareUpto(rows: seq<LogicalRow>, ds: nat, d: DataSet, row: nat) {
    Ordered(rows) && forall l :: l in rows <==> l.ds == ds && l.row < row && Bare(d, l)
  }

  /** `found` lists in order the logical rows of the data sets before `n`. */
  ghost predicate ShownUpto(found: seq<LogicalRow>, items: seq<Option<DataSet>>, n: nat)
    requires n <= |items|
  {
    && Ordered(found)
    && forall l :: l in found <==> l.ds < n && items[l.ds].Some? && Shown(items[l.ds].value, l)
  }

  ghost predicate KeptUpto(rows: seq<LogicalRow>, items: seq<Option<DataSet>>, n: nat)
    requires n <= |items|
  {
    && Ordered(rows)
    && forall l :: l in rows <==> l.ds < n && items[l.ds].Some? && Bare(items[l.ds].value, l)
  }

  /** Rows are as wide as the header, and from the first edge column on there are only edge columns. */
  predicate WellFormedData(d: DataSet) {
    && (forall i :: 0 <= i < |d.rows| ==> |d.rows[i]| == |d.header|)
    && forall i, j :: 0 <= i <= j < |d.header| - 1 && IsEdge(d.header[i]) ==> IsEdge(d.header[j])
  }

  /** The first edge column, and the names of the columns from there to the one before the last. */
  ghost predicate NamedFrom(d: DataSet, edgeStart: nat, names: map<nat, string>) {
    && edgeStart < |d.header|
    && (forall i :: 0 <= i < |d.header| ==> (IsEdge(d.header[i]) <==> edgeStart <= i < |d.header| - 1))
    && (forall i :: edgeStart <= i < |d.header| - 1 ==>
      |Split(d.header[i])| >= 2 && i in names && names[i] == Split(d.header[i])[1])
  }

  lemma WellFormedNamed(d: DataSet, edgeStart: nat, names: map<nat, string>)
    requires WellFormedData(d) && GoodHeader(d.header) && FirstEdge(d.header, |d.header|, Some(edgeStart))
    requires ColumnNames(d.header, |d.header|, names)
    ensures NamedFrom(d, edgeStart, names)
  {
    hide Split;
    var last := d.header[|d.header| - 1];
    assert StartsWith(last, "_expr");
    assert !StartsWith(last, "_edge") by { assert last[..5][2] != "_edge"[2]; }
    forall i | edgeStart <= i < |d.header| - 1
      ensures |Split(d.header[i])| >= 2 && i in names && names[i] == Split(d.header[i])[1]
    {
      assert IsEdge(d.header[i]) && GoodName(d.header[i]);
    }
  }

  lemma NextEntry(found: seq<LogicalRow>, ds: nat, d: DataSet, row: nat, column: nat, entry: nat, name: string)
    requires RowUpto(found, ds, d, row, column, entry)
    requires row < |d.rows| && column < |d.rows[row]| && column < |d.header| && IsEdge(d.header[column])
    requires d.rows[row][column].List? && entry < |d.rows[row][column].values|
    requires |Split(d.header[column])| >= 2 && name == Split(d.header[column])[1]
    ensures
      var isList := d.rows[row][column].values[entry].List?;
      RowUpto(if isList then found + [LogicalRow(ds, row, name, Some(Place(column, entry)))] else found,
              ds, d, row, column, entry + 1)
  {
    hide Split, IsEdge;
    var next := [LogicalRow(ds, row, name, Some(Place(column, entry)))];
    if d.rows[row][column].values[entry].List? {
      assert EdgeOf(d, next[0]);
      OrderedAppend(found, next);
    }
  }

  /** A column without edges, or whose entries are all listed, is done. */
  lemma NextColumn(found: seq<LogicalRow>, ds: nat, d: DataSet, row: nat, column: nat, entry: nat)
    requires RowUpto(found, ds, d, row, column, entry)
    requires forall k: nat :: EdgeAt(d, row, column, k) ==> k < entry
    ensures RowUpto(found, ds, d, row, column + 1, 0)
  {
    hide Split, IsEdge, EdgeAt;
  }

  method RowEdges(ds: nat, d: DataSet, row: nat, edgeStart: nat, names: map<nat, string>)
    returns (found: seq<LogicalRow>)
    requires row < |d.rows| && WellFormedData(d) && NamedFrom(d, edgeStart, names)
    ensures Ordered(found) && forall l :: l in found <==> l.ds == ds && l.row == row && EdgeOf(d, l)
  {
    hide Split, IsEdge;
    found := [];
    var cols := d.rows[row];
    var column := edgeStart;
    while column < |cols| - 1
      invariant edgeStart <= column <= |cols|
      invariant column == edgeStart || column < |cols|
      invariant RowUpto(found, ds, d, row, column, 0)
    {
      if cols[column].List? {
        var edges := cols[column].values;
        for k := 0 to |edges|
          invariant RowUpto(found, ds, d, row, column, k)
        {
          NextEntry(found, ds, d, row, column, k, names[column]);
          if edges[k].List? {
            found := found + [LogicalRow(ds, row, names[column], Some(Place(column, k)))];
          }
        }
        NextColumn(found, ds, d, row, column, |edges|);
      } else {
        NextColumn(found, ds, d, row, column, 0);
      }
      column := column + 1;
    }
  }

  lemma NextRow(all: seq<LogicalRow>, found: seq<LogicalRow>, ds: nat, d: DataSet, row: nat)
    requires EdgesUpto(all, ds, d, row)
    requires Ordered(found) && forall l :: l in found <==> l.ds == ds && l.row == row && EdgeOf(d, l)
    ensures EdgesUpto(all + found, ds, d, row + 1)
  {
    hide EdgeOf;
    OrderedAppend(all, found);
  }

  lemma NextBare(bare: seq<LogicalRow>, found: seq<LogicalRow>, ds: nat, d: DataSet, row: nat)
    requires BareUpto(bare, ds, d, row) && HasEdges(d) && row < |d.rows| && |d.rows[row]| == |d.header|
    requires forall i :: 0 <= i < |d.header| && IsEdge(d.header[i]) ==> |Split(d.header[i])| >= 2
    requires forall l :: l in found <==> l.ds == ds && l.row == row && EdgeOf(d, l)
    ensures BareUpto(if found == [] then bare + [LogicalRow(ds, row, "", None)] else bare, ds, d, row + 1)
  {
    hide Split, IsEdge, HasEdges;
    var next := LogicalRow(ds, row, "", None);
    forall column: nat, entry: nat | EdgeAt(d, row, column, entry) ensures found != [] {
      assert EdgeOf(d, LogicalRow(ds, row, Split(d.header[column])[1], Some(Place(column, entry))));
    }
    if found == [] {
      assert Bare(d, next);
      OrderedAppend(bare, [next]);
    } else {
      assert found[0] in found;
      assert EdgeAt(d, row, found[0].edge.value.column, found[0].edge.value.entry);
      forall l ensures l in bare <==> l.ds == ds && l.row < row + 1 && Bare(d, l) {
      }
    }
  }

  /** makeLogicalRowByEdge: every edge once and in order; the rows that hold none are kept apart. */
  method MakeLogicalRowByEdge(ds: nat, d: DataSet, edgeStart: nat, names: map<nat, string>)
    returns (logicalRows: seq<LogicalRow>, noEdgeRows: seq<LogicalRow>)
    requires WellFormedData(d) && HasEdges(d) && NamedFrom(d, edgeStart, names)
    ensures Ordered(logicalRows) && forall l :: l in logicalRows <==> l.ds == ds && EdgeOf(d, l)
    ensures Ordered(noEdgeRows) && forall l :: l in noEdgeRows <==> l.ds == ds && Bare(d, l)
  {
    hide Split, IsEdge, HasEdges, EdgeAt;
    logicalRows, noEdgeRows := [], [];
    for row := 0 to |d.rows|
      invariant EdgesUpto(logicalRows, ds, d, row)
      invariant BareUpto(noEdgeRows, ds, d, row)
    {
      var found := RowEdges(ds, d, row, edgeStart, names);
      NextRow(logicalRows, found, ds, d, row);
      NextBare(noEdgeRows, found, ds, d, row);
      logicalRows := logicalRows + found;
      if found == [] {
        noEdgeRows := noEdgeRows + [LogicalRow(ds, row, "", None)];
      }
    }
    EdgeInRows(d);
  }

  lemma EdgeInRows(d: DataSet)
    ensures forall l :: EdgeOf(d, l) ==> l.row < |d.rows|
  {
  }

  method PlainRows(ds: nat, d: DataSet) returns (logicalRows: seq<LogicalRow>)
    ensures Ordered(logicalRows) && forall l :: l in logicalRows <==> l.ds == ds && RowOf(d, l)
  {
    logicalRows := [];
    for row := 0 to |d.rows|
      invariant Ordered(logicalRows)
      invariant forall l :: l in logicalRows <==> l.ds == ds && l.row < row && RowOf(d, l)
    {
      OrderedAppend(logicalRows, [LogicalRow(ds, row, "", None)]);
      logicalRows := logicalRows + [LogicalRow(ds, row, "", None)];
    }
  }

  /** makeDataSetIndex: fails exactly on a bad header; otherwise the index and the rows of the data set. */
  method MakeDataSetIndex(ds: nat, d: DataSet)
    returns (index: Option<DataSetIndex>, logicalRows: seq<LogicalRow>, noEdgeRows: seq<LogicalRow>)
    requires WellFormedData(d)
    ensures index.None? <==> !GoodHeader(d.header)
    ensures index.Some? ==> Indexed(d.header, |d.header|, index.value)
    ensures index.Some? ==> Ordered(logicalRows) && forall l :: l in logicalRows <==> l.ds == ds && Shown(d, l)
    ensures index.Some? ==> Ordered(noEdgeRows) && forall l :: l in noEdgeRows <==> l.ds == ds && Bare(d, l)
  {
    hide NamesIndexed, PropsIndexed, Split, IsEdge, IsTag, ColumnNames, GoodHeader, EdgeAt, NamedFrom, WellFormedData;
    logicalRows, noEdgeRows := [], [];
    index := BuildIndex(d.header);
    if index.None? {
      return;
    }
    if index.value.edgeStart.None? {
      logicalRows := PlainRows(ds, d);
      return;
    }
    var edgeStart := index.value.edgeStart.value;
    WellFormedNamed(d, edgeStart, index.value.names);
    logicalRows, noEdgeRows := MakeLogicalRowByEdge(ds, d, edgeStart, index.value.names);
  }

  lemma NextDataSet(all: seq<LogicalRow>, found: seq<LogicalRow>, items: seq<Option<DataSet>>, n: nat)
    requires n < |items| && items[n].Some? && ShownUpto(all, items, n)
    requires Ordered(found) && forall l :: l in found <==> l.ds == n && Shown(items[n].value, l)
    ensures ShownUpto(all + found, items, n + 1)
  {
    hide Shown;
    OrderedAppend(all, found);
  }

  lemma NextKept(all: seq<LogicalRow>, found: seq<LogicalRow>, items: seq<Option<DataSet>>, n: nat)
    requires n < |items| && items[n].Some? && KeptUpto(all, items, n)
    requires Ordered(found) && forall l :: l in found <==> l.ds == n && Bare(items[n].value, l)
    ensures KeptUpto(all + found, items, n + 1)
  {
    hide Bare;
    OrderedAppend(all, found);
  }

  /** A row of a data set with edge columns is among the rows without edges exactly when it shows no edge. */
  lemma RowsPartition(items: seq<Option<DataSet>>, shown: seq<LogicalRow>, kept: seq<LogicalRow>, ds: nat, row: nat)
    requires ShownUpto(shown, items, |items|) && KeptUpto(kept, items, |items|)
    requires ds < |items| && items[ds].Some? && GoodHeader(items[ds].value.header)
    requires HasEdges(items[ds].value) && row < |items[ds].value.rows|
    ensures LogicalRow(ds, row, "", None) in kept <==> !exists l :: l in shown && l.ds == ds && l.row == row
  {
    hide Split, IsEdge, HasEdges, BadColumns;
    var d := items[ds].value;
    var bare := LogicalRow(ds, row, "", None);
    forall l | l in shown && l.ds == ds && l.row == row ensures !Bare(d, bare) {
      assert EdgeAt(d, row, l.edge.value.column, l.edge.value.entry);
    }
    if bare !in kept {
      var column: nat, entry: nat :| EdgeAt(d, row, column, entry);
      assert GoodName(d.header[column]);
      var l := LogicalRow(ds, row, Split(d.header[column])[1], Some(Place(column, entry)));
      assert EdgeOf(d, l);
      assert l in shown;
    }
  }

  // ---- Property lookup ----

  /** What a linear search of the header finds for a tag property of a row. */
  ghost predicate TagPropIs(header: seq<string>, row: Row, tag: string, prop: string, v: Value) {
    if NoColumn(header, false, tag) then v == Empty
    else exists i: nat :: FirstColumn(header, false, tag, i) && CellPropIs(header[i], row, i, prop, v)
  }

  ghost predicate CellPropIs(col: string, row: Row, i: nat, prop: string, v: Value) {
    if NoProp(col, prop) then v == Empty
    else if i >= |row| || !row[i].List? then v == BadType
    else exists k: nat :: FirstProp(col, prop, k) && k < |row[i].values| && v == row[i].values[k]
  }

  /** A row has a cell for every column, and a list cell a value for every property. */
  predicate RowOk(header: seq<string>, row: Row) {
    && |row| == |header|
    && forall i :: 0 <= i < |row| ==> IsTag(header[i]) && row[i].List? ==> |row[i].values| + 2 >= |Split(header[i])|
  }

  method TagProp(header: seq<string>, index: DataSetIndex, row: Row, tag: string, prop: string) returns (v: Value)
    requires Indexed(header, |header|, index) && RowOk(header, row)
    ensures TagPropIs(header, row, tag, prop, v)
  {
    assert header[..|header|] == header;
    assert NameIndexed(header, |header|, false, index.tagProps, tag);
    if tag !in index.tagProps {
      return Empty;
    }
    var found := index.tagProps[tag];
    var colId := found.colIdx;
    assert FirstColumn(header, false, tag, colId) && PropsIndexed(header[colId], found.propIndices);
    assert !NoColumn(header, false, tag) by { assert ColumnFor(header[colId], false, tag); }
    if prop !in found.propIndices {
      assert CellPropIs(header[colId], row, colId, prop, Empty);
      return Empty;
    }
    var k := found.propIndices[prop];
    assert FirstProp(header[colId], prop, k);
    assert !NoProp(header[colId], prop) by { assert Split(header[colId])[k + 2] == prop; }
    if !row[colId].List? {
      assert CellPropIs(header[colId], row, colId, prop, BadType);
      return BadType;
    }
    v := row[colId].values[k];
    assert CellPropIs(header[colId], row, colId, prop, v);
  }

  /** What a linear search finds for a property of an edge in a column for `current`; `*` stands for any edge. */
  ghost predicate EdgePropIs(header: seq<string>, current: string, values: seq<Value>, edge: string, prop: string,
                             v: Value)
    requires current != []
  {
    if edge != "*" && current[1..] != edge then v == Empty
    else if NoColumn(header, true, current) then v == Empty
    else exists i: nat :: FirstColumn(header, true, current, i) && ListPropIs(header[i], values, prop, v)
  }

  ghost predicate ListPropIs(col: string, values: seq<Value>, prop: string, v: Value) {
    if NoProp(col, prop) then v == Empty
    else exists k: nat :: FirstProp(col, prop, k) && k < |values| && v == values[k]
  }

  /** An edge has a value for every property of the columns that bear its name. */
  predicate EdgeOk(header: seq<string>, current: string, values: seq<Value>) {
    forall i :: 0 <= i < |header| && ColumnFor(header[i], true, current) ==> |values| + 2 >= |Split(header[i])|
  }

  method EdgeProp(header: seq<string>, index: DataSetIndex, current: string, values: seq<Value>, edge: string,
                  prop: string)
    returns (v: Value)
    requires Indexed(header, |header|, index) && current != [] && EdgeOk(header, current, values)
    ensures EdgePropIs(header, current, values, edge, prop, v)
  {
    assert header[..|header|] == header;
    assert NameIndexed(header, |header|, true, index.edgeProps, current);
    if edge != "*" && current[1..] != edge {
      return Empty;
    }
    if current !in index.edgeProps {
      return Empty;
    }
    var found := index.edgeProps[current];
    var colId := found.colIdx;
    assert FirstColumn(header, true, current, colId) && PropsIndexed(header[colId], found.propIndices);
    assert !NoColumn(header, true, current) by { assert ColumnFor(header[colId], true, current); }
    if prop !in found.propIndices {
      assert ListPropIs(header[colId], values, prop, Empty);
      return Empty;
    }
    var k := found.propIndices[prop];
    assert FirstProp(header[colId], prop, k);
    assert !NoProp(header[colId], prop) by { assert Split(header[colId])[k + 2] == prop; }
    v := values[k];
    assert ListPropIs(header[colId], values, prop, v);
  }

  // ---- The iterator ----

  /** A list of data sets with good headers. */
  predicate GoodAnswer(answer: Answer) {
    && answer.Items?
    && forall i :: 0 <= i < |answer.items| ==> answer.items[i].Some? && GoodHeader(answer.items[i].value.header)
  }

  predicate WellFormedAnswer(answer: Answer) {
    answer.Items? ==>
      forall i :: 0 <= i < |answer.items| && answer.items[i].Some? ==> WellFormedData(answer.items[i].value)
  }

  ghost predicate AllIndexed(items: seq<Option<DataSet>>, indices: seq<DataSetIndex>) {
    && |indices| <= |items|
    && forall i :: 0 <= i < |indices| ==>
      items[i].Some? && GoodHeader(items[i].value.header)
      && Indexed(items[i].value.header, |items[i].value.header|, indices[i])
  }

  /** The data set and the row that a logical row stands for exist. */
  predicate RowExists(answer: Answer, l: LogicalRow) {
    && answer.Items? && l.ds < |answer.items| && answer.items[l.ds].Some?
    && l.row < |answer.items[l.ds].value.rows|
  }

  /** The entry of the answer that a logical row stands for is an edge. */
  predicate EdgeExists(answer: Answer, l: LogicalRow) {
    && RowExists(answer, l) && l.edge.Some?
    && var d, column, entry := answer.items[l.ds].value, l.edge.value.column, l.edge.value.entry;
    && EdgeAt(d, l.row, column, entry) && |Split(d.header[column])| >= 2 && Split(d.header[column])[1] != []
  }

  /** The value of a tag property of a logical row: that of a search of the header of its own data set, in
      its own row. */
  ghost predicate TagValue(answer: Answer, l: LogicalRow, tag: string, prop: string, v: Value) {
    && RowExists(answer, l)
    && TagPropIs(answer.items[l.ds].value.header, answer.items[l.ds].value.rows[l.row], tag, prop, v)
  }

  /** The value of an edge property of a logical row: that of a search of the header of its own data set, in
      the entry at its own row, column and place, for an edge of the name of that column. */
  ghost predicate EdgeValue(answer: Answer, l: LogicalRow, edge: string, prop: string, v: Value) {
    && EdgeExists(answer, l)
    && var d, column, entry := answer.items[l.ds].value, l.edge.value.column, l.edge.value.entry;
    EdgePropIs(d.header, Split(d.header[column])[1], d.rows[l.row][column].values[entry].values, edge, prop, v)
  }

  /** The row is as its header says. */
  predicate RowFits(answer: Answer, l: LogicalRow) {
    RowExists(answer, l) ==> RowOk(answer.items[l.ds].value.header, answer.items[l.ds].value.rows[l.row])
  }

  /** The entry of the edge has a value for every property of the columns that bear its name. */
  predicate EdgeFits(answer: Answer, l: LogicalRow) {
    EdgeExists(answer, l) ==>
      var d, column, entry := answer.items[l.ds].value, l.edge.value.column, l.edge.value.entry;
      EdgeOk(d.header, Split(d.header[column])[1], d.rows[l.row][column].values[entry].values)
  }

  class GetNeighborsIter {
    const answer: Answer
    var valid: bool
    var dsIndices: seq<DataSetIndex>
    var logicalRows: seq<LogicalRow>
    var noEdgeRows: seq<LogicalRow>
    var iter: nat

    /** Either nothing, or the logical rows of all the data sets in order, and an index for each data set. */
    ghost predicate Valid()
      reads `valid, `dsIndices, `logicalRows, `noEdgeRows
    {
      if valid then
        && GoodAnswer(answer) && |dsIndices| == |answer.items| && AllIndexed(answer.items, dsIndices)
        && ShownUpto(logicalRows, answer.items, |answer.items|)
        && KeptUpto(noEdgeRows, answer.items, |answer.items|)
      else dsIndices == [] && logicalRows == []
    }

    constructor (answer: Answer)
      requires WellFormedAnswer(answer)
      ensures Valid() && this.answer == answer && iter == 0
      ensures valid <==> GoodAnswer(answer)
    {
      this.answer := answer;
      valid, dsIndices, logicalRows, noEdgeRows, iter := false, [], [], [], 0;
      new;
      var ok := ProcessList();
      if ok {
        valid := true;
      } else {
        dsIndices, logicalRows := [], [];
      }
    }

    /** processList: stops at the first item that is no data set or has a bad header. */
    method ProcessList() returns (ok: bool)
      requires WellFormedAnswer(answer) && dsIndices == [] && logicalRows == [] && noEdgeRows == []
      modifies this
      ensures ok <==> GoodAnswer(answer)
      ensures ok ==> |dsIndices| == |answer.items| && AllIndexed(answer.items, dsIndices)
      ensures ok ==> ShownUpto(logicalRows, answer.items, |answer.items|)
      ensures ok ==> KeptUpto(noEdgeRows, answer.items, |answer.items|)
      ensures valid == old(valid) && iter == old(iter)
    {
      hide Shown, Bare, GoodHeader, Indexed, WellFormedData;
      if answer.NotList? {
        return false;
      }
      for i := 0 to |answer.items|
        invariant |dsIndices| == i && AllIndexed(answer.items, dsIndices)
        invariant ShownUpto(logicalRows, answer.items, i) && KeptUpto(noEdgeRows, answer.items, i)
        invariant valid == old(valid) && iter == old(iter)
      {
        if answer.items[i].None? {
          return false;
        }
        var index, rows, bare := MakeDataSetIndex(i, answer.items[i].value);
        if index.None? {
          return false;
        }
        NextDataSet(logicalRows, rows, answer.items, i);
        NextKept(noEdgeRows, bare, answer.items, i);
        logicalRows, noEdgeRows := logicalRows + rows, noEdgeRows + bare;
        dsIndices := dsIndices + [index.value];
      }
      ok := true;
    }

    /** A logical row stands for a row of the answer, and has a name exactly when it stands for an edge. */
    lemma Standing(i: nat)
      requires Valid() && valid && i < |logicalRows|
      ensures
        var l := logicalRows[i];
        && RowExists(answer, l) && l.ds < |dsIndices|
        && var header := answer.items[l.ds].value.header;
        Indexed(header, |header|, dsIndices[l.ds])
      ensures logicalRows[i].edge.None? <==> logicalRows[i].edgeName == []
      ensures logicalRows[i].edge.Some? ==> EdgeExists(answer, logicalRows[i])
      ensures logicalRows[i].edge.Some? ==>
        var l := logicalRows[i];
        l.edgeName == Split(answer.items[l.ds].value.header[l.edge.value.column])[1]
    {
      hide Indexed, Bare, Split, IsEdge, IsTag;
      var l := logicalRows[i];
      assert l in logicalRows;
      var d := answer.items[l.ds].value;
      if l.edge.Some? {
        assert EdgeOf(d, l);
        NamedEdge(d.header, l.edge.value.column);
      }
    }

    /** getTagProp, on the current row. */
    method GetTagProp(tag: string, prop: string) returns (v: Value)
      requires Valid() && (valid && iter < |logicalRows| ==> RowFits(answer, logicalRows[iter]))
      ensures !(valid && iter < |logicalRows|) ==> v == Null
      ensures valid && iter < |logicalRows| ==> TagValue(answer, logicalRows[iter], tag, prop, v)
    {
      hide RowOk, TagPropIs, Indexed, Shown, ShownUpto, KeptUpto, EdgeExists;
      if !valid || iter >= |logicalRows| {
        return Null;
      }
      Standing(iter);
      var l := logicalRows[iter];
      var d := answer.items[l.ds].value;
      v := TagProp(d.header, dsIndices[l.ds], d.rows[l.row], tag, prop);
    }

    /** getEdgeProp, on the current row. On a row without edge only `*` can be asked for: comparing the
        empty name from its second character throws. */
    method GetEdgeProp(edge: string, prop: string) returns (r: Option<Value>)
      requires Valid() && (valid && iter < |logicalRows| ==> EdgeFits(answer, logicalRows[iter]))
      ensures r.None? <==> valid && iter < |logicalRows| && logicalRows[iter].edge.None? && edge != "*"
      ensures !(valid && iter < |logicalRows|) ==> r == Some(Null)
      ensures r.Some? && valid && iter < |logicalRows| ==>
        if logicalRows[iter].edge.None? then r.value == Empty
        else EdgeValue(answer, logicalRows[iter], edge, prop, r.value)
    {
      hide EdgeOk, EdgePropIs, Indexed, Shown, ShownUpto, KeptUpto, GoodHeader, AllIndexed, Split;
      if !valid || iter >= |logicalRows| {
        return Some(Null);
      }
      Standing(iter);
      var l := logicalRows[iter];
      if l.edgeName == [] {
        return if edge == "*" then Some(Empty) else None;
      }
      var d, place := answer.items[l.ds].value, l.edge.value;
      var values := d.rows[l.row][place.column].values[place.entry].values;
      var v := EdgeProp(d.header, dsIndices[l.ds], l.edgeName, values, edge, prop);
      r := Some(v);
    }

    method Next()
      requires Valid()
      modifies this`iter
      ensures Valid() && iter == if valid && old(iter) < |logicalRows| then old(iter) + 1 else old(iter)
    {
      if valid && iter < |logicalRows| {
        iter := iter + 1;
      }
    }

    /** How the executors read a column: one value for each logical row that is left, in order. */
    method ReadTagProp(tag: string, prop: string) returns (vs: seq<Value>)
      requires Valid() && iter <= |logicalRows|
      requires forall i :: 0 <= i < |logicalRows| ==> RowFits(answer, logicalRows[i])
      modifies this`iter
      ensures Valid() && (valid ==> iter == |logicalRows|)
      ensures if valid then |vs| == |logicalRows| - old(iter) else vs == []
      ensures forall j :: 0 <= j < |vs| ==> TagValue(answer, logicalRows[old(iter) + j], tag, prop, vs[j])
    {
      hide RowFits, TagValue, ShownUpto, KeptUpto, AllIndexed, GoodAnswer;
      vs := [];
      while valid && iter < |logicalRows|
        invariant Valid() && old(iter) <= iter <= |logicalRows|
        invariant if valid then |vs| == iter - old(iter) else vs == []
        invariant forall j :: 0 <= j < |vs| ==> TagValue(answer, logicalRows[old(iter) + j], tag, prop, vs[j])
        decreases |logicalRows| - iter
      {
        var v := GetTagProp(tag, prop);
        vs := vs + [v];
        Next();
      }
    }

    /** The same for a property of the edges: the j-th value is that of the j-th edge, by data set, row,
        column and entry. */
    method ReadEdgeProp(edge: string, prop: string) returns (vs: seq<Value>)
      requires Valid() && iter <= |logicalRows|
      requires forall i :: 0 <= i < |logicalRows| ==> logicalRows[i].edge.Some? && EdgeFits(answer, logicalRows[i])
      modifies this`iter
      ensures Valid() && (valid ==> iter == |logicalRows|)
      ensures if valid then |vs| == |logicalRows| - old(iter) else vs == []
      ensures forall j :: 0 <= j < |vs| ==> EdgeValue(answer, logicalRows[old(iter) + j], edge, prop, vs[j])
    {
      hide EdgeFits, EdgeValue, ShownUpto, KeptUpto, AllIndexed, GoodAnswer;
      vs := [];
      while valid && iter < |logicalRows|
        invariant Valid() && old(iter) <= iter <= |logicalRows|
        invariant if valid then |vs| == iter - old(iter) else vs == []
        invariant forall j :: 0 <= j < |vs| ==> EdgeValue(answer, logicalRows[old(iter) + j], edge, prop, vs[j])
        decreases |logicalRows| - iter
      {
        var r := GetEdgeProp(edge, prop);
        vs := vs + [r.value];
        Next();
      }
    }
  }

  lemma NamedEdge(header: seq<string>, column: nat)
    requires GoodHeader(header) && column < |header| && IsEdge(header[column])
    ensures |Split(header[column])| >= 2 && Split(header[column])[1] != []
  {
    hide Split, BadColumns;
    assert GoodName(header[column]);
  }
}
