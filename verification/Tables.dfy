/** Concatenating the results of a function over a list, up to order. */
module Bags {
  function FlatMap<A, B>(s: seq<A>, f: A -> seq<B>): seq<B> {
    if s == [] then [] else f(s[0]) + FlatMap(s[1..], f)
  }

  lemma {:induction false} FlatMapConcat<A, B>(s: seq<A>, t: seq<A>, f: A -> seq<B>)
    ensures FlatMap(s + t, f) == FlatMap(s, f) + FlatMap(t, f)
    decreases |s|
  {
    if s == [] {
      assert s + t == t;
    } else {
      assert (s + t)[1..] == s[1..] + t;
      FlatMapConcat(s[1..], t, f);
    }
  }

  lemma FlatMapSnoc<A, B>(s: seq<A>, i: nat, f: A -> seq<B>)
    requires i < |s|
    ensures FlatMap(s[..i + 1], f) == FlatMap(s[..i], f) + f(s[i])
  {
    assert s[..i + 1] == s[..i] + [s[i]];
    FlatMapConcat(s[..i], [s[i]], f);
    assert FlatMap([s[i]], f) == f(s[i]) + FlatMap([], f);
  }

  lemma {:induction false} FlatMapIn<A, B>(s: seq<A>, f: A -> seq<B>, b: B)
    ensures b in FlatMap(s, f) <==> exists i :: 0 <= i < |s| && b in f(s[i])
    decreases |s|
  {
    if s != [] {
      FlatMapIn(s[1..], f, b);
      if b in FlatMap(s[1..], f) {
        var i :| 0 <= i < |s[1..]| && b in f(s[1..][i]);
        assert b in f(s[i + 1]);
      }
      if i :| 0 <= i < |s| && b in f(s[i]) {
        if i > 0 {
          assert b in f(s[1..][i - 1]);
        }
      }
    }
  }

  lemma RemoveAt<A>(t: seq<A>, i: nat)
    requires i < |t|
    ensures multiset(t) == multiset{t[i]} + multiset(t[..i] + t[i + 1..])
  {
    assert t == t[..i] + ([t[i]] + t[i + 1..]);
  }

  lemma Cancel<A>(a: A, s: multiset<A>, t: multiset<A>)
    requires multiset{a} + s == multiset{a} + t
    ensures s == t
  {
    assert s == (multiset{a} + s) - multiset{a};
    assert t == (multiset{a} + t) - multiset{a};
  }

  lemma FlatMapRemove<A, B>(t: seq<A>, i: nat, f: A -> seq<B>)
    requires i < |t|
    ensures multiset(FlatMap(t, f)) == multiset(f(t[i])) + multiset(FlatMap(t[..i] + t[i + 1..], f))
  {
    assert t == t[..i] + ([t[i]] + t[i + 1..]);
    FlatMapConcat(t[..i], [t[i]] + t[i + 1..], f);
    FlatMapConcat(t[..i], t[i + 1..], f);
    assert ([t[i]] + t[i + 1..])[1..] == t[i + 1..];
  }

  /** The order of the list does not matter. */
  lemma {:induction false} FlatMapPermuted<A, B>(s: seq<A>, t: seq<A>, f: A -> seq<B>)
    requires multiset(s) == multiset(t)
    ensures multiset(FlatMap(s, f)) == multiset(FlatMap(t, f))
    decreases |s|
  {
    if s == [] {
      assert |multiset(t)| == 0;
    } else {
      assert s[0] in multiset(s);
      var i :| 0 <= i < |t| && t[i] == s[0];
      var rest := t[..i] + t[i + 1..];
      RemoveAt(t, i);
      RemoveAt(s, 0);
      assert s[..0] + s[0 + 1..] == s[1..];
      FlatMapRemove(t, i, f);
      Cancel(s[0], multiset(s[1..]), multiset(rest));
      FlatMapPermuted(s[1..], rest, f);
    }
  }

  // ---- Pairs ----

  function Pairs1<A, B, C>(a: A, t: seq<B>, f: (A, B) -> seq<C>): seq<C> {
    if t == [] then [] else f(a, t[0]) + Pairs1(a, t[1..], f)
  }

  /** The results for every pair, outer list first. */
  function Pairs<A, B, C>(s: seq<A>, t: seq<B>, f: (A, B) -> seq<C>): seq<C> {
    if s == [] then [] else Pairs1(s[0], t, f) + Pairs(s[1..], t, f)
  }

  lemma {:induction false} PairsSplit<A, B, C>(a: A, s: seq<A>, t: seq<B>, f: (A, B) -> seq<C>, g: (B, A) -> seq<C>)
    requires s != [] && a == s[0] && forall x, y :: g(y, x) == f(x, y)
    ensures multiset(Pairs(t, s, g)) == multiset(Pairs1(a, t, f)) + multiset(Pairs(t, s[1..], g))
    decreases |t|
  {
    if t != [] {
      PairsSplit(a, s, t[1..], f, g);
      assert Pairs1(t[0], s, g) == f(a, t[0]) + Pairs1(t[0], s[1..], g);
    }
  }

  lemma {:induction false} PairsEmpty<A, B, C>(t: seq<B>, g: (B, A) -> seq<C>)
    ensures Pairs(t, [], g) == []
    decreases |t|
  {
    if t != [] {
      PairsEmpty<A, B, C>(t[1..], g);
    }
  }

  /** The two loops of a join may be exchanged. */
  lemma {:induction false} PairsExchange<A, B, C>(s: seq<A>, t: seq<B>, f: (A, B) -> seq<C>, g: (B, A) -> seq<C>)
    requires forall x, y :: g(y, x) == f(x, y)
    ensures multiset(Pairs(s, t, f)) == multiset(Pairs(t, s, g))
    decreases |s|
  {
    if s == [] {
      PairsEmpty(t, g);
    } else {
      PairsExchange(s[1..], t, f, g);
      PairsSplit(s[0], s, t, f, g);
    }
  }

  lemma {:induction false} PairsFlat<A, B, C>(s: seq<A>, t: seq<B>, f: (A, B) -> seq<C>)
    ensures Pairs(s, t, f) == FlatMap(s, (a: A) => Pairs1(a, t, f))
    decreases |s|
  {
    if s != [] {
      PairsFlat(s[1..], t, f);
    }
  }

  lemma PairsPermuted<A, B, C>(s: seq<A>, s': seq<A>, t: seq<B>, f: (A, B) -> seq<C>)
    requires multiset(s) == multiset(s')
    ensures multiset(Pairs(s, t, f)) == multiset(Pairs(s', t, f))
  {
    PairsFlat(s, t, f);
    PairsFlat(s', t, f);
    FlatMapPermuted(s, s', (a: A) => Pairs1(a, t, f));
  }

  predicate NoDuplicates<A(==)>(s: seq<A>) {
    forall i, j :: 0 <= i < j < |s| ==> s[i] != s[j]
  }

  /** Lists without duplicates and with the same elements are permutations. */
  lemma SameElements<A>(s: seq<A>, t: seq<A>)
    requires NoDuplicates(s) && NoDuplicates(t) && forall a :: a in s <==> a in t
    ensures multiset(s) == multiset(t)
  {
    forall a ensures multiset(s)[a] == multiset(t)[a] {
      NoDuplicatesCount(s, a);
      NoDuplicatesCount(t, a);
    }
  }

  lemma {:induction false} NoDuplicatesCount<A>(s: seq<A>, a: A)
    requires NoDuplicates(s)
    ensures multiset(s)[a] == if a in s then 1 else 0
    decreases |s|
  {
    if s != [] {
      assert s == [s[0]] + s[1..];
      NoDuplicatesCount(s[1..], a);
    }
  }
}

/** Rows and tables, and what the executors of a GO plan compute. */
module Tables {
  import opened Bags

  datatype Value = Null | Val(id: int)

  /** `_vid`, `_dst`, the properties of an edge, generated columns and the user's own. */
  datatype Col = Vid | Dst | EdgeProps | Anon(n: nat) | User(name: string)

  type Row = map<Col, Value>
  type Table = seq<Row>

  datatype Edge = Edge(dst: Value, props: Value)

  /** The edges that storage returns for a vertex, in its order. */
  type Graph = Value -> seq<Edge>

  function Get(row: Row, col: Col): Value {
    if col in row then row[col] else Null
  }

  // ---- Project ----

  datatype Yield = Yield(from: Col, to: Col)

  function ProjectRow(cols: seq<Yield>, row: Row): Row {
    if cols == [] then map[]
    else ProjectRow(cols[..|cols| - 1], row)[cols[|cols| - 1].to := Get(row, cols[|cols| - 1].from)]
  }

  function ProjectTable(cols: seq<Yield>, t: Table): Table {
    seq(|t|, i requires 0 <= i < |t| => ProjectRow(cols, t[i]))
  }

  predicate IsTarget(cols: seq<Yield>, c: Col) {
    exists i :: 0 <= i < |cols| && cols[i].to == c
  }

  /** Column `i` is the last with its target. */
  predicate LastTarget(cols: seq<Yield>, i: nat) {
    i < |cols| && forall j :: i < j < |cols| ==> cols[j].to != cols[i].to
  }

  lemma {:induction false} ProjectRowKeys(cols: seq<Yield>, row: Row, c: Col)
    ensures c in ProjectRow(cols, row) <==> IsTarget(cols, c)
    decreases |cols|
  {
    if cols != [] {
      var n := |cols| - 1;
      ProjectRowKeys(cols[..n], row, c);
      assert IsTarget(cols, c) <==> IsTarget(cols[..n], c) || cols[n].to == c by {
        assert cols == cols[..n] + [cols[n]];
      }
    }
  }

  lemma {:induction false} ProjectRowValue(cols: seq<Yield>, row: Row, i: nat)
    requires LastTarget(cols, i)
    ensures cols[i].to in ProjectRow(cols, row) && ProjectRow(cols, row)[cols[i].to] == Get(row, cols[i].from)
    decreases |cols|
  {
    hide Get;
    var n := |cols| - 1;
    if i < n {
      assert cols[..n][i] == cols[i];
      ProjectRowValue(cols[..n], row, i);
    }
  }

  /** A projected row has the targets, each with the value that its last column takes from the row. */
  lemma ProjectRowAt(cols: seq<Yield>, row: Row)
    ensures forall c :: c in ProjectRow(cols, row) <==> IsTarget(cols, c)
    ensures forall i: nat :: LastTarget(cols, i) ==>
      cols[i].to in ProjectRow(cols, row) && ProjectRow(cols, row)[cols[i].to] == Get(row, cols[i].from)
  {
    hide ProjectRow, IsTarget, Get;
    forall c ensures c in ProjectRow(cols, row) <==> IsTarget(cols, c) {
      ProjectRowKeys(cols, row, c);
    }
    forall i: nat | LastTarget(cols, i)
      ensures cols[i].to in ProjectRow(cols, row) && ProjectRow(cols, row)[cols[i].to] == Get(row, cols[i].from)
    {
      ProjectRowValue(cols, row, i);
    }
  }

  lemma ProjectOne(a: Yield, row: Row)
    ensures ProjectRow([a], row) == map[a.to := Get(row, a.from)]
  {
    assert [a][..0] == [];
  }

  lemma ProjectTwo(a: Yield, b: Yield, row: Row)
    ensures ProjectRow([a, b], row) == map[a.to := Get(row, a.from), b.to := Get(row, b.from)]
  {
    assert [a, b][..1] == [a];
    ProjectOne(a, row);
  }

  method Project(cols: seq<Yield>, t: Table) returns (out: Table)
    ensures out == ProjectTable(cols, t)
  {
    out := [];
    for i := 0 to |t|
      invariant out == ProjectTable(cols, t)[..i]
    {
      var row: Row := map[];
      for j := 0 to |cols|
        invariant row == ProjectRow(cols[..j], t[i])
      {
        assert cols[..j + 1][..j] == cols[..j];
        row := row[cols[j].to := Get(t[i], cols[j].from)];
      }
      assert cols[..|cols|] == cols;
      out := out + [row];
    }
  }

  // ---- Dedup ----

  /** Iterator::eraseBySwap: the last element takes the place of the erased one. */
  function EraseBySwap<T>(rows: seq<T>, i: nat): seq<T>
    requires i < |rows|
  {
    rows[i := rows[|rows| - 1]][..|rows| - 1]
  }

  /** DedupExecutor: erases every row that was seen before. The order changes, the set does not. */
  method Dedup(t: Table) returns (out: Table)
    ensures out == DedupTable(t)
  {
    var seen: set<Row> := {};
    var i := 0;
    out := t;
    while i < |out|
      invariant i <= |out|
      invariant DedupFrom(out, i, seen) == DedupTable(t)
      decreases |out| - i
    {
      if out[i] in seen {
        out := EraseBySwap(out, i);
      } else {
        seen := seen + {out[i]};
        i := i + 1;
      }
    }
  }

  function DedupFrom(rows: Table, i: nat, seen: set<Row>): Table
    requires i <= |rows|
    decreases |rows| - i
  {
    if i == |rows| then rows
    else if rows[i] in seen then DedupFrom(EraseBySwap(rows, i), i, seen)
    else DedupFrom(rows, i + 1, seen + {rows[i]})
  }

  function DedupTable(t: Table): Table {
    DedupFrom(t, 0, {})
  }

  lemma {:induction false} DedupFromKeeps(rows: Table, i: nat, seen: set<Row>)
    requires i <= |rows| && NoDuplicates(rows[..i]) && (forall row :: row in seen <==> row in rows[..i])
    ensures NoDuplicates(DedupFrom(rows, i, seen)) && forall row :: row in DedupFrom(rows, i, seen) <==> row in rows
    decreases |rows| - i
  {
    if i == |rows| {
      assert rows[..i] == rows;
    } else if rows[i] in seen {
      var fewer := EraseBySwap(rows, i);
      assert fewer[..i] == rows[..i];
      forall row ensures row in fewer <==> row in rows {
        if row in rows {
          var j :| 0 <= j < |rows| && rows[j] == row;
          if j == i {
            assert row in fewer[..i];
          } else if j < |rows| - 1 {
            assert fewer[j] == row;
          } else {
            assert fewer[i] == row;
          }
        }
      }
      DedupFromKeeps(fewer, i, seen);
    } else {
      assert rows[..i + 1] == rows[..i] + [rows[i]];
      DedupFromKeeps(rows, i + 1, seen + {rows[i]});
    }
  }

  /** Dedup keeps each row once. */
  lemma DedupKeeps(t: Table)
    ensures NoDuplicates(DedupTable(t)) && forall row :: row in DedupTable(t) <==> row in t
  {
    DedupFromKeeps(t, 0, {});
  }

  // ---- Join ----

  /** A pair of rows with equal keys joins into one row, in which the left row's columns win. */
  function Meet(leftKey: Col, rightKey: Col): (Row, Row) -> seq<Row> {
    (l: Row, r: Row) => if Get(l, leftKey) == Get(r, rightKey) then [r + l] else []
  }

  function MeetFlipped(leftKey: Col, rightKey: Col): (Row, Row) -> seq<Row> {
    (r: Row, l: Row) => if Get(l, leftKey) == Get(r, rightKey) then [r + l] else []
  }

  /** The smaller side is hashed and the other one drives the result. */
  function JoinTable(left: Table, right: Table, leftKey: Col, rightKey: Col): Table {
    if |left| < |right| then Pairs(right, left, MeetFlipped(leftKey, rightKey))
    else Pairs(left, right, Meet(leftKey, rightKey))
  }

  /** Whichever side is hashed, the result is the same up to order. */
  lemma JoinAnySide(left: Table, right: Table, leftKey: Col, rightKey: Col)
    ensures multiset(JoinTable(left, right, leftKey, rightKey)) == multiset(Pairs(left, right, Meet(leftKey, rightKey)))
  {
    PairsExchange(left, right, Meet(leftKey, rightKey), MeetFlipped(leftKey, rightKey));
  }

  lemma {:induction false} Pairs1In(l: Row, right: Table, leftKey: Col, rightKey: Col, row: Row)
    ensures row in Pairs1(l, right, Meet(leftKey, rightKey)) <==>
            exists r :: r in right && Joins(l, r, leftKey, rightKey, row)
    decreases |right|
  {
    if right != [] {
      Pairs1In(l, right[1..], leftKey, rightKey, row);
      assert row in Meet(leftKey, rightKey)(l, right[0]) <==> Joins(l, right[0], leftKey, rightKey, row);
      assert right[0] in right && forall r :: r in right <==> r == right[0] || r in right[1..];
    }
  }

  predicate Joins(l: Row, r: Row, leftKey: Col, rightKey: Col, row: Row) {
    Get(l, leftKey) == Get(r, rightKey) && row == r + l
  }

  lemma PairsIn(left: Table, right: Table, leftKey: Col, rightKey: Col, row: Row)
    ensures row in Pairs(left, right, Meet(leftKey, rightKey)) <==>
            exists l, r :: l in left && r in right && Joins(l, r, leftKey, rightKey, row)
  {
    var f := (l: Row) => Pairs1(l, right, Meet(leftKey, rightKey));
    PairsFlat(left, right, Meet(leftKey, rightKey));
    FlatMapIn(left, f, row);
    if i :| 0 <= i < |left| && row in f(left[i]) {
      Pairs1In(left[i], right, leftKey, rightKey, row);
      var r :| r in right && Joins(left[i], r, leftKey, rightKey, row);
      assert left[i] in left;
    }
    if l, r :| l in left && r in right && Joins(l, r, leftKey, rightKey, row) {
      Pairs1In(l, right, leftKey, rightKey, row);
      var i :| 0 <= i < |left| && left[i] == l;
      assert row in f(left[i]);
    }
  }

  lemma JoinIn(left: Table, right: Table, leftKey: Col, rightKey: Col, row: Row)
    ensures row in JoinTable(left, right, leftKey, rightKey) <==>
            exists l, r :: l in left && r in right && Joins(l, r, leftKey, rightKey, row)
  {
    JoinAnySide(left, right, leftKey, rightKey);
    PairsIn(left, right, leftKey, rightKey, row);
    assert row in JoinTable(left, right, leftKey, rightKey) <==>
      row in multiset(JoinTable(left, right, leftKey, rightKey));
    assert row in Pairs(left, right, Meet(leftKey, rightKey)) <==>
      row in multiset(Pairs(left, right, Meet(leftKey, rightKey)));
  }

  type HashTable = map<Value, Table>

  function Bucket(table: HashTable, key: Value): Table {
    if key in table then table[key] else []
  }

  function Pick(key: Col, v: Value): Row -> seq<Row> {
    (row: Row) => if Get(row, key) == v then [row] else []
  }

  function WithKey(t: Table, key: Col, v: Value): Table {
    FlatMap(t, Pick(key, v))
  }

  method BuildHashTable(t: Table, key: Col) returns (table: HashTable)
    ensures forall v :: Bucket(table, v) == WithKey(t, key, v)
  {
    table := map[];
    for i := 0 to |t|
      invariant forall v :: Bucket(table, v) == WithKey(t[..i], key, v)
    {
      ghost var before := table;
      table := table[Get(t[i], key) := Bucket(table, Get(t[i], key)) + [t[i]]];
      forall v ensures Bucket(table, v) == WithKey(t[..i + 1], key, v) {
        FlatMapSnoc(t, i, Pick(key, v));
        assert Bucket(before, v) == WithKey(t[..i], key, v);
      }
    }
    assert t[..|t|] == t;
  }

  function Merge(probe: Row, row: Row, exchanged: bool): Row {
    if exchanged then row + probe else probe + row
  }

  function MergeAll(probe: Row, bucket: Table, exchanged: bool): Table {
    seq(|bucket|, i requires 0 <= i < |bucket| => Merge(probe, bucket[i], exchanged))
  }

  /** The join of a probe row and a row of the hashed side. */
  function Combine(leftKey: Col, rightKey: Col, exchanged: bool): (Row, Row) -> seq<Row> {
    if exchanged then Meet(leftKey, rightKey) else MeetFlipped(leftKey, rightKey)
  }

  lemma {:induction false} BucketMatches(probe: Row, built: Table, leftKey: Col, rightKey: Col, exchanged: bool)
    ensures MergeAll(probe, WithKey(built, if exchanged then rightKey else leftKey,
      Get(probe, if exchanged then leftKey else rightKey)), exchanged)
         == Pairs1(probe, built, Combine(leftKey, rightKey, exchanged))
    decreases |built|
  {
    if built != [] {
      BucketMatches(probe, built[1..], leftKey, rightKey, exchanged);
      var key, v := if exchanged then rightKey else leftKey, Get(probe, if exchanged then leftKey else rightKey);
      var head := Pick(key, v)(built[0]);
      MergeConcat(probe, head, WithKey(built[1..], key, v), exchanged);
      assert MergeAll(probe, head, exchanged) == Combine(leftKey, rightKey, exchanged)(probe, built[0]);
    }
  }

  lemma MergeConcat(probe: Row, a: Table, b: Table, exchanged: bool)
    ensures MergeAll(probe, a + b, exchanged) == MergeAll(probe, a, exchanged) + MergeAll(probe, b, exchanged)
  {
  }

  lemma {:induction false} PairsSnoc(s: Table, t: Table, f: (Row, Row) -> seq<Row>, i: nat)
    requires i < |s|
    ensures Pairs(s[..i + 1], t, f) == Pairs(s[..i], t, f) + Pairs1(s[i], t, f)
  {
    PairsFlat(s[..i + 1], t, f);
    PairsFlat(s[..i], t, f);
    FlatMapSnoc(s, i, (a: Row) => Pairs1(a, t, f));
  }

  method Probe(probes: Table, built: Table, table: HashTable, leftKey: Col, rightKey: Col,
               exchanged: bool) returns (out: Table)
    requires forall v :: Bucket(table, v) == WithKey(built, if exchanged then rightKey else leftKey, v)
    ensures out == Pairs(probes, built, Combine(leftKey, rightKey, exchanged))
  {
    var f := Combine(leftKey, rightKey, exchanged);
    out := [];
    for i := 0 to |probes|
      invariant out == Pairs(probes[..i], built, f)
    {
      var bucket := Bucket(table, Get(probes[i], if exchanged then leftKey else rightKey));
      out := out + MergeAll(probes[i], bucket, exchanged);
      BucketMatches(probes[i], built, leftKey, rightKey, exchanged);
      PairsSnoc(probes, built, f, i);
    }
    assert probes[..|probes|] == probes;
  }

  /** DataJoinExecutor::doInnerJoin. */
  method InnerJoin(left: Table, right: Table, leftKey: Col, rightKey: Col) returns (out: Table)
    ensures out == JoinTable(left, right, leftKey, rightKey)
  {
    if |left| == 0 || |right| == 0 {
      PairsEmpty(left, Meet(leftKey, rightKey));
      PairsEmpty(right, MeetFlipped(leftKey, rightKey));
      return [];
    }
    if |left| < |right| {
      var table := BuildHashTable(left, leftKey);
      out := Probe(right, left, table, leftKey, rightKey, false);
    } else {
      var table := BuildHashTable(right, rightKey);
      out := Probe(left, right, table, leftKey, rightKey, true);
    }
  }

  // ---- GetNeighbors ----

  function EdgeRow(u: Value, e: Edge): Row {
    map[Vid := u, Dst := e.dst, EdgeProps := e.props]
  }

  function EdgeRows(graph: Graph, u: Value): Table {
    seq(|graph(u)|, i requires 0 <= i < |graph(u)| => EdgeRow(u, graph(u)[i]))
  }

  function NeighborsTable(graph: Graph, t: Table, src: Col): Table {
    FlatMap(t, (row: Row) => EdgeRows(graph, Get(row, src)))
  }

  method GetNeighbors(graph: Graph, t: Table, src: Col) returns (out: Table)
    ensures out == NeighborsTable(graph, t, src)
  {
    out := [];
    var f := (row: Row) => EdgeRows(graph, Get(row, src));
    for i := 0 to |t|
      invariant out == FlatMap(t[..i], f)
    {
      out := out + EdgeRows(graph, Get(t[i], src));
      FlatMapSnoc(t, i, f);
    }
    assert t[..|t|] == t;
  }

  predicate IsEdge(graph: Graph, u: Value, e: Edge) {
    e in graph(u)
  }

  lemma NeighborsIn(graph: Graph, t: Table, src: Col, row: Row)
    ensures row in NeighborsTable(graph, t, src) <==>
            exists r, e :: r in t && IsEdge(graph, Get(r, src), e) && row == EdgeRow(Get(r, src), e)
  {
    var f := (row: Row) => EdgeRows(graph, Get(row, src));
    FlatMapIn(t, f, row);
    if row in NeighborsTable(graph, t, src) {
      var i :| 0 <= i < |t| && row in f(t[i]);
      var u := Get(t[i], src);
      var j :| 0 <= j < |graph(u)| && row == EdgeRows(graph, u)[j];
      assert t[i] in t && IsEdge(graph, u, graph(u)[j]) && row == EdgeRow(u, graph(u)[j]);
    }
    if r, e :| r in t && IsEdge(graph, Get(r, src), e) && row == EdgeRow(Get(r, src), e) {
      var i :| 0 <= i < |t| && t[i] == r;
      var j :| 0 <= j < |graph(Get(r, src))| && graph(Get(r, src))[j] == e;
      assert EdgeRows(graph, Get(r, src))[j] == row;
      assert row in f(t[i]);
    }
  }
}
