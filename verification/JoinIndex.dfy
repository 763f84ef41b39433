/** The column index of joined rows: from a column of the whole row to a column of a segment. */
module JoinIndex {
  /** How an iterator was made: from a data set with so many columns, whose names differ, or by a join. */
  datatype Shape = Base(width: nat) | Join(left: Shape, right: Shape)

  datatype Place = Place(seg: nat, col: nat)

  function Width(s: Shape): nat {
    match s
    case Base(width) => width
    case Join(l, r) => Width(l) + Width(r)
  }

  /** The number of segments in a row. */
  function Segments(s: Shape): (n: nat)
    ensures n >= 1
  {
    match s
    case Base(_) => 1
    case Join(l, r) => Segments(l) + Segments(r)
  }

  /** The segments of a row, left to right, have the widths of the base iterators. */
  predicate Fits<V>(s: Shape, segs: seq<seq<V>>)
    decreases s
  {
    && |segs| == Segments(s)
    && match s
       case Base(width) => |segs[0]| == width
       case Join(l, r) => Fits(l, segs[..Segments(l)]) && Fits(r, segs[Segments(l)..])
  }

  function Concat<V>(segs: seq<seq<V>>): seq<V> {
    if segs == [] then [] else segs[0] + Concat(segs[1..])
  }

  /** Where column `g` really lies. */
  function Locate(s: Shape, g: nat): (p: Place)
    requires g < Width(s)
    ensures p.seg < Segments(s)
  {
    match s
    case Base(_) => Place(0, g)
    case Join(l, r) =>
      if g < Width(l) then Locate(l, g)
      else var p := Locate(r, g - Width(l)); Place(p.seg + Segments(l), p.col)
  }

  lemma {:induction false} ConcatBoth<V>(a: seq<seq<V>>, b: seq<seq<V>>)
    ensures Concat(a + b) == Concat(a) + Concat(b)
    decreases |a|
  {
    if a == [] {
      assert a + b == b;
    } else {
      assert (a + b)[1..] == a[1..] + b;
      ConcatBoth(a[1..], b);
    }
  }

  lemma {:induction false} ConcatWidth<V>(s: Shape, segs: seq<seq<V>>)
    requires Fits(s, segs)
    ensures |Concat(segs)| == Width(s)
    decreases s
  {
    match s
    case Base(_) =>
      assert segs[1..] == [];
    case Join(l, r) =>
      var n := Segments(l);
      ConcatWidth(l, segs[..n]);
      ConcatWidth(r, segs[n..]);
      assert segs == segs[..n] + segs[n..];
      ConcatBoth(segs[..n], segs[n..]);
  }

  /** Locating a column agrees with concatenating the segments. */
  lemma {:induction false} LocateIsConcat<V>(s: Shape, segs: seq<seq<V>>, g: nat)
    requires Fits(s, segs) && g < Width(s)
    ensures |Concat(segs)| == Width(s)
    ensures var p := Locate(s, g); p.seg < |segs| && p.col < |segs[p.seg]| && segs[p.seg][p.col] == Concat(segs)[g]
    decreases s
  {
    ConcatWidth(s, segs);
    match s
    case Base(_) =>
      assert segs[1..] == [];
    case Join(l, r) =>
      var n := Segments(l);
      assert segs == segs[..n] + segs[n..];
      ConcatBoth(segs[..n], segs[n..]);
      ConcatWidth(l, segs[..n]);
      if g < Width(l) {
        LocateIsConcat(l, segs[..n], g);
      } else {
        LocateIsConcat(r, segs[n..], g - Width(l));
      }
  }

  // ---- What joinIndex builds ----

  /** Entry g is the place of column g. */
  type Index = seq<Place>

  function BaseIndex(width: nat): Index {
    seq(width, i requires 0 <= i < width => Place(0, i))
  }

  function Shift(m: Index, segs: nat): Index {
    seq(|m|, i requires 0 <= i < |m| => Place(m[i].seg + segs, m[i].col))
  }

  /** The largest segment that the index mentions, for an iterator with columns. */
  function LastSegment(s: Shape): nat
    decreases s, 0
  {
    match s
    case Base(_) => 0
    case Join(l, r) => if Width(r) > 0 then NextSegment(l) + LastSegment(r) else LastSegment(l)
  }

  /** Where the segments of a right side start, as buildIndexFromSeqIter and buildIndexFromJoinIter tell. */
  function NextSegment(s: Shape): nat
    decreases s, 1
  {
    if s.Base? then 1 else if Width(s) == 0 then 0 else LastSegment(s) + 1
  }

  function IndexOf(s: Shape): (m: Index)
    ensures |m| == Width(s)
  {
    match s
    case Base(width) => BaseIndex(width)
    case Join(l, r) => IndexOf(l) + Shift(IndexOf(r), NextSegment(l))
  }

  /** The index is never ahead of the true segment, and within the segment it is exact. */
  lemma {:induction false} NeverAhead(s: Shape, g: nat)
    requires g < Width(s)
    ensures IndexOf(s)[g].seg <= Locate(s, g).seg && IndexOf(s)[g].col == Locate(s, g).col
    decreases s
  {
    if s.Join? {
      if g < Width(s.left) {
        NeverAhead(s.left, g);
      } else {
        NeverAhead(s.right, g - Width(s.left));
        NextAtMost(s.left);
      }
    }
  }

  lemma {:induction false} LastAtMost(s: Shape)
    ensures LastSegment(s) < Segments(s)
    decreases s, 0
  {
    if s.Join? {
      LastAtMost(s.left);
      LastAtMost(s.right);
      NextAtMost(s.left);
    }
  }

  lemma {:induction false} NextAtMost(s: Shape)
    ensures NextSegment(s) <= Segments(s)
    decreases s, 1
  {
    LastAtMost(s);
  }

  // ---- When the index is right ----

  ghost predicate Correct(s: Shape) {
    forall g: nat :: g < Width(s) ==> IndexOf(s)[g] == Locate(s, g)
  }

  function LastWidth(s: Shape): nat {
    match s
    case Base(width) => width
    case Join(_, r) => LastWidth(r)
  }

  /** No join on a left side ends in a segment without columns, unless nothing follows. */
  predicate Fine(s: Shape) {
    match s
    case Base(_) => true
    case Join(l, r) => Fine(l) && Fine(r) && (Width(r) == 0 || l.Base? || LastWidth(l) > 0)
  }

  lemma {:induction false} LastPart(s: Shape)
    ensures LastWidth(s) <= Width(s)
    decreases s
  {
    if s.Join? {
      LastPart(s.right);
    }
  }

  /** A fine join names its last segment exactly when that segment has columns. */
  lemma {:induction false} NextExact(s: Shape)
    requires Fine(s)
    ensures Width(s) > 0 ==> (LastSegment(s) == Segments(s) - 1 <==> LastWidth(s) > 0)
    ensures s.Join? ==> (NextSegment(s) == Segments(s) <==> LastWidth(s) > 0)
    decreases s
  {
    if s.Join? {
      NextExact(s.left);
      NextExact(s.right);
      LastPart(s.right);
      LastAtMost(s.left);
      LastAtMost(s.right);
    }
  }

  /** Every column of every nesting of joins is found where it lies, exactly for the fine nestings. */
  lemma {:induction false} IndexCorrect(s: Shape)
    ensures Correct(s) <==> Fine(s)
    decreases s
  {
    if s.Join? {
      IndexCorrect(s.left);
      IndexCorrect(s.right);
      if Fine(s) {
        NextExact(s.left);
        forall g: nat | g < Width(s) ensures IndexOf(s)[g] == Locate(s, g) {
          if g >= Width(s.left) {
            assert IndexOf(s.right)[g - Width(s.left)] == Locate(s.right, g - Width(s.left));
          }
        }
      } else {
        NotFineWrong(s.left, s.right);
      }
    }
  }

  lemma NotFineWrong(l: Shape, r: Shape)
    requires !Fine(Join(l, r)) && (Correct(l) <==> Fine(l)) && (Correct(r) <==> Fine(r))
    ensures !Correct(Join(l, r))
  {
    var s := Join(l, r);
    NextAtMost(l);
    var g: nat;
    if !Fine(l) {
      g :| g < Width(l) && IndexOf(l)[g] != Locate(l, g);
    } else if !Fine(r) {
      var h: nat :| h < Width(r) && IndexOf(r)[h] != Locate(r, h);
      NeverAhead(r, h);
      g := Width(l) + h;
    } else {
      NextExact(l);
      NeverAhead(r, 0);
      g := Width(l);
    }
    assert IndexOf(s)[g] != Locate(s, g);
  }

  /** In a fine nesting, column `g` of a joined row is element `g` of the concatenated base rows. */
  lemma JoinedColumn<V>(s: Shape, segs: seq<seq<V>>, g: nat)
    requires Fits(s, segs) && g < Width(s) && Fine(s)
    ensures IndexOf(s)[g].seg < |segs| && IndexOf(s)[g].col < |segs[IndexOf(s)[g].seg]|
    ensures |Concat(segs)| == Width(s) && segs[IndexOf(s)[g].seg][IndexOf(s)[g].col] == Concat(segs)[g]
  {
    IndexCorrect(s);
    LocateIsConcat(s, segs, g);
  }

  /** A join that ends in a base without columns hides the start of what is joined to its right. */
  lemma EmptySegmentBreaksIndex()
    ensures !Correct(Join(Join(Base(1), Base(0)), Base(1)))
  {
    IndexCorrect(Join(Join(Base(1), Base(0)), Base(1)));
  }

  predicate EveryBaseHasColumns(s: Shape) {
    match s
    case Base(width) => width > 0
    case Join(l, r) => EveryBaseHasColumns(l) && EveryBaseHasColumns(r)
  }

  lemma {:induction false} ColumnsAreFine(s: Shape)
    requires EveryBaseHasColumns(s)
    ensures Fine(s) && LastWidth(s) > 0
    decreases s
  {
    if s.Join? {
      ColumnsAreFine(s.left);
      ColumnsAreFine(s.right);
    }
  }

  // ---- The loops that build it ----

  type Table = map<nat, Place>

  /** The hash map holds exactly the entries of the index. */
  ghost predicate Holds(t: Table, m: Index) {
    (forall k: nat :: k in t <==> k < |m|) && forall k: nat :: k < |m| ==> t[k] == m[k]
  }

  lemma {:induction false} HoldsSize(t: Table, m: Index)
    requires Holds(t, m)
    ensures |t| == |m|
    decreases |m|
  {
    if m == [] {
      assert t == map[];
    } else {
      var n := |m| - 1;
      var fewer := t - {n};
      HoldsSize(fewer, m[..n]);
      assert t == fewer[n := t[n]];
    }
  }

  ghost predicate IsTop(m: Index, top: nat) {
    (exists k: nat :: k < |m| && m[k].seg == top) && forall k: nat :: k < |m| ==> m[k].seg <= top
  }

  lemma {:induction false} LastIsTop(s: Shape)
    requires Width(s) > 0
    ensures IsTop(IndexOf(s), LastSegment(s))
    decreases s
  {
    var m := IndexOf(s);
    match s
    case Base(_) =>
      assert m[0].seg == 0;
    case Join(l, r) =>
      if Width(l) > 0 {
        LastIsTop(l);
      }
      if Width(r) > 0 {
        LastIsTop(r);
        var k: nat :| k < Width(r) && IndexOf(r)[k].seg == LastSegment(r);
        assert m[k + Width(l)].seg == LastSegment(s);
      } else {
        var k: nat :| k < Width(l) && IndexOf(l)[k].seg == LastSegment(l);
        assert m[k].seg == LastSegment(s);
      }
  }

  /** All entries of `m` but those in `left` have been copied. */
  ghost predicate Copied(t: Table, have: Index, m: Index, segIdx: nat, left: set<nat>) {
    && (forall k :: k in left ==> k < |m|)
    && (forall k :: k in t ==>
          || k < |have|
          || (k < |have| + |m| && k - |have| !in left && t[k] == Shift(m, segIdx)[k - |have|]))
    && (forall k: nat :: k < |have| ==> k in t && t[k] == have[k])
    && (forall k: nat :: k < |m| && k !in left ==> |have| + k in t)
  }

  /** `top` is the largest new segment of the entries that have been copied, or 0 for none. */
  ghost predicate TopSoFar(m: Index, segIdx: nat, left: set<nat>, top: nat) {
    && (forall k: nat :: k < |m| && k !in left ==> m[k].seg + segIdx <= top)
    && ((forall k: nat :: k < |m| ==> k in left) ==> top == 0)
    && (forall j: nat :: j < |m| && j !in left ==> exists k: nat :: k < |m| && k !in left && m[k].seg + segIdx == top)
  }

  lemma CopyNone(t: Table, have: Index, from: Table, m: Index, segIdx: nat)
    requires Holds(t, have) && Holds(from, m)
    ensures Copied(t, have, m, segIdx, from.Keys) && TopSoFar(m, segIdx, from.Keys, 0)
  {
  }

  lemma HoldsAt(t: Table, m: Index, k: nat)
    requires Holds(t, m) && k in t
    ensures k < |m| && t[k] == m[k]
  {
  }

  lemma CopyOne(t: Table, have: Index, m: Index, segIdx: nat, left: set<nat>, k: nat)
    requires Copied(t, have, m, segIdx, left) && k in left
    ensures k + |have| !in t
    ensures Copied(t[k + |have| := Place(m[k].seg + segIdx, m[k].col)], have, m, segIdx, left - {k})
  {
  }

  lemma TopOne(m: Index, segIdx: nat, left: set<nat>, top: nat, k: nat)
    requires TopSoFar(m, segIdx, left, top) && k in left && k < |m|
    ensures TopSoFar(m, segIdx, left - {k}, if m[k].seg + segIdx > top then m[k].seg + segIdx else top)
  {
    var more := left - {k};
    assert k !in more;
    if m[k].seg + segIdx <= top {
      if j: nat :| j < |m| && j !in left {
        var i: nat :| i < |m| && i !in left && m[i].seg + segIdx == top;
        assert i !in more;
      } else {
        assert forall i: nat :: i < |m| ==> i in left;
      }
    }
  }

  lemma CopiedAll(t: Table, have: Index, m: Index, segIdx: nat, left: set<nat>, top: nat)
    requires Copied(t, have, m, segIdx, left) && TopSoFar(m, segIdx, left, top) && left == {}
    ensures Holds(t, have + Shift(m, segIdx))
    ensures m != [] ==> top >= segIdx && IsTop(m, top - segIdx)
    ensures m == [] ==> top == 0
  {
    forall k: nat | k < |have| + |m| ensures k in t {
      if k >= |have| {
        var j: nat := k - |have|;
        assert j !in left;
      }
    }
    if m != [] {
      var first: nat := 0;
      assert first !in left;
      var k: nat :| k < |m| && k !in left && m[k].seg + segIdx == top;
      forall j: nat | j < |m| ensures m[j].seg <= top - segIdx { assert j !in left; }
    }
  }

  // ---- Columns by name ----

  type Names = map<string, Place>

  /** The map holds the names of the columns, each with the place of a column of that name. */
  ghost predicate Named(names: seq<string>, t: Table, byName: Names) {
    && (forall g: nat :: g in t ==> g < |names| && names[g] in byName)
    && (forall n :: n in byName ==> NamesOne(names, t, byName, n))
  }

  ghost predicate NamesOne(names: seq<string>, t: Table, byName: Names, n: string)
    requires n in byName
  {
    exists g: nat :: g < |names| && g in t && names[g] == n && t[g] == byName[n]
  }

  ghost predicate Keeps(before: Names, after: Names) {
    forall n :: n in before ==> n in after && after[n] == before[n]
  }

  lemma NameOne(names: seq<string>, t: Table, byName: Names, g: nat, p: Place)
    requires Named(names, t, byName) && g !in t && g < |names|
    ensures
      var after := if names[g] in byName then byName else byName[names[g] := p];
      Named(names, t[g := p], after) && Keeps(byName, after)
  {
    var after := if names[g] in byName then byName else byName[names[g] := p];
    var u := t[g := p];
    forall n | n in after ensures NamesOne(names, u, after, n) {
      if n in byName {
        assert NamesOne(names, t, byName, n);
        var h: nat :| h < |names| && h in t && names[h] == n && t[h] == byName[n];
        assert u[h] == after[n];
      } else {
        assert u[g] == after[n];
      }
    }
  }

  lemma KeepsTransitive(a: Names, b: Names, c: Names)
    requires Keeps(a, b) && Keeps(b, c)
    ensures Keeps(a, c)
  {
  }

  lemma NamedEmpty(names: seq<string>, t: Table, byName: Names)
    requires Named(names, t, byName)
    ensures byName == map[] <==> t == map[]
  {
    if g :| g in t {
      assert names[g] in byName;
    }
    if n :| n in byName {
      assert NamesOne(names, t, byName, n);
    }
  }

  /** A name on the left stands for a column of the left, and every other name for one of the right. */
  ghost predicate LeftFirst(names: seq<string>, m: Index, w: nat, byName: Names)
    requires w <= |m| <= |names|
  {
    && (forall n :: n in byName <==> n in names[..|m|])
    && (forall n :: n in names[..w] ==> NameIn(names, m, 0, w, byName, n))
    && (forall n :: n in names[w..|m|] && n !in names[..w] ==> NameIn(names, m, w, |m|, byName, n))
  }

  ghost predicate NameIn(names: seq<string>, m: Index, from: nat, end: nat, byName: Names, n: string)
    requires from <= end <= |m| <= |names|
  {
    n in byName && exists g: nat :: from <= g < end && names[g] == n && m[g] == byName[n]
  }

  lemma NamedIn(names: seq<string>, t: Table, m: Index, byName: Names, n: string)
    requires Holds(t, m) && Named(names, t, byName) && |m| <= |names|
    ensures n in byName <==> n in names[..|m|]
    ensures n in byName ==> NameIn(names, m, 0, |m|, byName, n)
  {
    if n in byName {
      assert NamesOne(names, t, byName, n);
      var g: nat :| g < |names| && g in t && names[g] == n && t[g] == byName[n];
      assert names[..|m|][g] == n && m[g] == byName[n];
    }
    forall g: nat | g < |m| ensures names[..|m|][g] in byName {
      assert g in t;
    }
  }

  /** Names are filled in side by side and never replaced, so the left side wins. */
  lemma LeftWins(names: seq<string>, t0: Table, l: Index, by0: Names, t1: Table, m: Index, by1: Names)
    requires Holds(t0, l) && Named(names, t0, by0) && Holds(t1, m) && Named(names, t1, by1) && Keeps(by0, by1)
    requires l <= m && |m| <= |names|
    ensures LeftFirst(names, m, |l|, by1)
  {
    forall n ensures n in by1 <==> n in names[..|m|] {
      NamedIn(names, t1, m, by1, n);
    }
    forall n | n in names[..|l|] ensures NameIn(names, m, 0, |l|, by1, n) {
      NamedIn(names, t0, l, by0, n);
      var g: nat :| g < |l| && names[g] == n && l[g] == by0[n];
      assert m[g] == by1[n];
    }
    forall n | n in names[|l|..|m|] && n !in names[..|l|] ensures NameIn(names, m, |l|, |m|, by1, n) {
      OnTheRight(names, t1, m, by1, |l|, n);
    }
  }

  lemma OnTheRight(names: seq<string>, t: Table, m: Index, byName: Names, w: nat, n: string)
    requires Holds(t, m) && Named(names, t, byName) && w <= |m| <= |names|
    requires n in names[w..|m|] && n !in names[..w]
    ensures NameIn(names, m, w, |m|, byName, n)
  {
    var k: nat :| k < |m| - w && names[w..|m|][k] == n;
    assert names[..|m|][w + k] == n;
    NamedIn(names, t, m, byName, n);
    var g: nat :| g < |m| && names[g] == n && m[g] == byName[n];
    forall i | 0 <= i < w ensures names[i] in names[..w] {
      assert names[..w][i] == names[i];
    }
  }

  /** A name that only one column has stands for that column. */
  lemma NameIsPlace(names: seq<string>, m: Index, w: nat, byName: Names, g: nat)
    requires w <= |m| <= |names| && g < |m| && LeftFirst(names, m, w, byName)
    requires forall i :: 0 <= i < |m| && i != g ==> names[i] != names[g]
    ensures names[g] in byName && byName[names[g]] == m[g]
  {
    var n := names[g];
    if g < w {
      assert names[..w][g] == n;
      assert NameIn(names, m, 0, w, byName, n);
    } else {
      assert names[w..|m|][g - w] == n;
      assert n !in names[..w];
      assert NameIn(names, m, w, |m|, byName, n);
    }
  }

  /** When the names differ, looking a column up by its name and by its position give the same place:
      in a fine nesting, that of the element of the concatenated base rows. */
  lemma NamedColumn<V>(s: Shape, segs: seq<seq<V>>, names: seq<string>, byName: Names, w: nat, g: nat)
    requires Fits(s, segs) && g < Width(s) <= |names| && w <= Width(s) && LeftFirst(names, IndexOf(s), w, byName)
    requires forall i, j :: 0 <= i < j < Width(s) ==> names[i] != names[j]
    ensures names[g] in byName && byName[names[g]] == IndexOf(s)[g]
    ensures Fine(s) ==>
      var p := byName[names[g]];
      p.seg < |segs| && p.col < |segs[p.seg]| && |Concat(segs)| == Width(s) && segs[p.seg][p.col] == Concat(segs)[g]
  {
    NameIsPlace(names, IndexOf(s), w, byName, g);
    if Fine(s) {
      JoinedColumn(s, segs, g);
    }
  }

  // ---- The index of a data set ----

  predicate Differ(names: seq<string>) {
    forall i, j :: 0 <= i < j < |names| ==> names[i] != names[j]
  }

  ghost predicate FirstColumns(names: seq<string>, n: nat, columns: map<string, nat>)
    requires n <= |names|
  {
    && (forall i :: 0 <= i < n ==> names[i] in columns && columns[names[i]] <= i)
    && (forall name :: name in columns ==> columns[name] < n && names[columns[name]] == name)
  }

  /** The index of a data set: each name with the first column that bears it. It gives every column its
      own position exactly when the names differ. */
  method ColIndices(names: seq<string>) returns (columns: map<string, nat>)
    ensures FirstColumns(names, |names|, columns)
    ensures (forall i :: 0 <= i < |names| ==> columns[names[i]] == i) <==> Differ(names)
  {
    columns := map[];
    for i := 0 to |names|
      invariant FirstColumns(names, i, columns)
    {
      if names[i] !in columns {
        columns := columns[names[i] := i];
      }
    }
    AllOwn(names, columns);
  }

  lemma AllOwn(names: seq<string>, columns: map<string, nat>)
    requires FirstColumns(names, |names|, columns)
    ensures (forall i :: 0 <= i < |names| ==> columns[names[i]] == i) <==> Differ(names)
  {
    if Differ(names) {
      forall i | 0 <= i < |names| ensures columns[names[i]] == i {
        assert names[columns[names[i]]] == names[i];
      }
    }
  }

  /** Column `i` is the first that bears its name, and the name is not in `left`. */
  predicate Own(names: seq<string>, columns: map<string, nat>, left: set<string>, i: nat) {
    i < |names| && names[i] in columns && columns[names[i]] == i && names[i] !in left
  }

  ghost predicate ColumnAt(t: Table, have: Index, segIdx: nat, names: seq<string>, columns: map<string, nat>,
                           left: set<string>, k: nat)
  {
    if k < |have| then k in t && t[k] == have[k]
    else if Own(names, columns, left, k - |have|) then k in t && t[k] == Place(segIdx, k - |have|)
    else k !in t
  }

  /** Behind `have` there is an entry for the first column of each name but those in `left`, and no other. */
  ghost predicate RowColumns(t: Table, have: Index, segIdx: nat, names: seq<string>, columns: map<string, nat>,
                             left: set<string>)
  {
    forall k: nat :: ColumnAt(t, have, segIdx, names, columns, left, k)
  }

  lemma NoRowColumns(t: Table, have: Index, segIdx: nat, names: seq<string>, columns: map<string, nat>)
    requires Holds(t, have)
    ensures RowColumns(t, have, segIdx, names, columns, columns.Keys)
  {
  }

  lemma NextRowColumn(t: Table, have: Index, segIdx: nat, names: seq<string>, columns: map<string, nat>,
                      left: set<string>, name: string)
    requires FirstColumns(names, |names|, columns) && RowColumns(t, have, segIdx, names, columns, left)
    requires name in left && name in columns
    ensures |have| + columns[name] !in t
    ensures RowColumns(t[|have| + columns[name] := Place(segIdx, columns[name])], have, segIdx, names, columns,
              left - {name})
  {
    var i := columns[name];
    assert i < |names| && names[i] == name;
    assert ColumnAt(t, have, segIdx, names, columns, left, |have| + i);
    var u := t[|have| + i := Place(segIdx, i)];
    forall k: nat ensures ColumnAt(u, have, segIdx, names, columns, left - {name}, k) {
      assert ColumnAt(t, have, segIdx, names, columns, left, k);
    }
  }

  lemma AllRowColumns(t: Table, have: Index, segIdx: nat, names: seq<string>, columns: map<string, nat>)
    requires FirstColumns(names, |names|, columns) && RowColumns(t, have, segIdx, names, columns, {})
    requires Differ(names)
    ensures Holds(t, have + Shift(BaseIndex(|names|), segIdx))
  {
    AllOwn(names, columns);
    var m := have + Shift(BaseIndex(|names|), segIdx);
    forall k: nat ensures (k in t <==> k < |m|) && (k < |m| ==> t[k] == m[k]) {
      assert ColumnAt(t, have, segIdx, names, columns, {}, k);
    }
  }

  class JoinIter {
    const colNames: seq<string>
    var colIdxIndices: Table
    var colIndices: Names

    constructor (colNames: seq<string>)
      ensures this.colNames == colNames && colIdxIndices == map[] && colIndices == map[]
    {
      this.colNames := colNames;
      colIdxIndices, colIndices := map[], map[];
    }

    /** One column, by name and by position; an entry that exists is not replaced. */
    method Emplace(g: nat, place: Place)
      requires Named(colNames, colIdxIndices, colIndices) && g < |colNames| && g !in colIdxIndices
      modifies this
      ensures colIdxIndices == old(colIdxIndices)[g := place]
      ensures Named(colNames, colIdxIndices, colIndices) && Keeps(old(colIndices), colIndices)
    {
      hide Named, Keeps;
      NameOne(colNames, colIdxIndices, colIndices, g, place);
      if colNames[g] !in colIndices {
        colIndices := colIndices[colNames[g] := place];
      }
      if g !in colIdxIndices {
        colIdxIndices := colIdxIndices[g := place];
      }
    }

    method CopyEntry(k: nat, place: Place, segIdx: nat, start: nat, top: nat, ghost have: Index, ghost m: Index,
                     ghost left: set<nat>) returns (newTop: nat)
      requires k in left && k < |m| && place == m[k] && start == |have| && |have| + |m| <= |colNames|
      requires Copied(colIdxIndices, have, m, segIdx, left) && TopSoFar(m, segIdx, left, top)
      requires Named(colNames, colIdxIndices, colIndices)
      modifies this
      ensures Copied(colIdxIndices, have, m, segIdx, left - {k}) && TopSoFar(m, segIdx, left - {k}, newTop)
      ensures Named(colNames, colIdxIndices, colIndices) && Keeps(old(colIndices), colIndices)
    {
      hide *;
      var newSeg := place.seg + segIdx;
      CopyOne(colIdxIndices, have, m, segIdx, left, k);
      TopOne(m, segIdx, left, top, k);
      newTop := if newSeg > top then newSeg else top;
      Emplace(k + start, Place(newSeg, place.col));
    }

    /** Copies the entries of an index behind those that are there, in whatever order the hash map
        gives them; an entry that exists is not replaced, by position or by name. `top` is the
        largest segment copied. */
    method Append(from: Table, segIdx: nat, ghost have: Index, ghost m: Index) returns (top: nat)
      requires Holds(colIdxIndices, have) && Holds(from, m) && |have| + |m| <= |colNames|
      requires Named(colNames, colIdxIndices, colIndices)
      modifies this
      ensures Holds(colIdxIndices, have + Shift(m, segIdx))
      ensures Named(colNames, colIdxIndices, colIndices) && Keeps(old(colIndices), colIndices)
      ensures m != [] ==> top >= segIdx && IsTop(m, top - segIdx)
      ensures m == [] ==> top == 0
    {
      hide *;
      HoldsSize(colIdxIndices, have);
      CopyNone(colIdxIndices, have, from, m, segIdx);
      assert Keeps(colIndices, colIndices) by { KeepsItself(colIndices); }
      var start := |colIdxIndices|;
      var left: set<nat> := from.Keys;
      top := 0;
      while left != {}
        invariant left <= from.Keys
        invariant Copied(colIdxIndices, have, m, segIdx, left) && TopSoFar(m, segIdx, left, top)
        invariant Named(colNames, colIdxIndices, colIndices) && Keeps(old(colIndices), colIndices)
        decreases |left|
      {
        var k :| k in left;
        HoldsAt(from, m, k);
        ghost var before := colIndices;
        top := CopyEntry(k, from[k], segIdx, start, top, have, m, left);
        KeepsTransitive(old(colIndices), before, colIndices);
        left := left - {k};
      }
      CopiedAll(colIdxIndices, have, m, segIdx, left, top);
    }

    method AddRowColumn(name: string, i: nat, segIdx: nat, start: nat, ghost have: Index, ghost names: seq<string>,
                        ghost columns: map<string, nat>, ghost left: set<string>)
      requires FirstColumns(names, |names|, columns) && name in left && name in columns && columns[name] == i
      requires RowColumns(colIdxIndices, have, segIdx, names, columns, left)
      requires start == |have| && |have| + |names| <= |colNames| && Named(colNames, colIdxIndices, colIndices)
      modifies this
      ensures RowColumns(colIdxIndices, have, segIdx, names, columns, left - {name})
      ensures Named(colNames, colIdxIndices, colIndices) && Keeps(old(colIndices), colIndices)
    {
      hide *;
      NextRowColumn(colIdxIndices, have, segIdx, names, columns, left, name);
      ColumnWithin(names, columns, name);
      Emplace(start + i, Place(segIdx, i));
    }

    /** buildIndexFromSeqIter and buildIndexFromPropIter: one entry for each name of the data set, in
        whatever order the hash map gives them. */
    method BuildIndexFromRows(names: seq<string>, segIdx: nat, ghost have: Index)
      returns (next: nat, ghost columns: map<string, nat>)
      requires Holds(colIdxIndices, have) && |have| + |names| <= |colNames|
      requires Named(colNames, colIdxIndices, colIndices)
      modifies this
      ensures FirstColumns(names, |names|, columns) && RowColumns(colIdxIndices, have, segIdx, names, columns, {})
      ensures Differ(names) ==> Holds(colIdxIndices, have + Shift(BaseIndex(|names|), segIdx))
      ensures next == segIdx + 1
      ensures Named(colNames, colIdxIndices, colIndices) && Keeps(old(colIndices), colIndices)
    {
      hide *;
      var indices := ColIndices(names);
      columns := indices;
      HoldsSize(colIdxIndices, have);
      NoRowColumns(colIdxIndices, have, segIdx, names, indices);
      KeepsItself(colIndices);
      var start := |colIdxIndices|;
      var left := indices.Keys;
      while left != {}
        invariant left <= indices.Keys && RowColumns(colIdxIndices, have, segIdx, names, indices, left)
        invariant Named(colNames, colIdxIndices, colIndices) && Keeps(old(colIndices), colIndices)
        decreases |left|
      {
        var name :| name in left;
        ghost var before := colIndices;
        AddRowColumn(name, indices[name], segIdx, start, have, names, indices, left);
        KeepsTransitive(old(colIndices), before, colIndices);
        left := left - {name};
      }
      if Differ(names) {
        AllRowColumns(colIdxIndices, have, segIdx, names, indices);
      }
      next := segIdx + 1;
    }

    /** buildIndexFromJoinIter. */
    method BuildIndexFromJoin(from: Table, byName: Names, segIdx: nat, ghost have: Index, ghost m: Index)
      returns (next: nat)
      requires Holds(colIdxIndices, have) && Holds(from, m) && |have| + |m| <= |colNames|
      requires Named(colNames, colIdxIndices, colIndices) && (byName == map[] <==> from == map[])
      modifies this
      ensures Holds(colIdxIndices, have + Shift(m, segIdx))
      ensures Named(colNames, colIdxIndices, colIndices) && Keeps(old(colIndices), colIndices)
      ensures m == [] ==> next == 0
      ensures m != [] ==> next >= segIdx + 1 && IsTop(m, next - 1 - segIdx)
    {
      hide Named;
      HoldsSize(from, m);
      if |byName| == 0 {
        return 0;
      }
      var top := Append(from, segIdx, have, m);
      next := top + 1;
    }

    /** Either kind of side. */
    method BuildIndexFrom(side: Side, segIdx: nat, ghost have: Index, ghost s: Shape) returns (next: nat)
      requires Holds(colIdxIndices, have) && Describes(side, s) && |have| + Width(s) <= |colNames|
      requires Named(colNames, colIdxIndices, colIndices)
      modifies this
      ensures Holds(colIdxIndices, have + Shift(IndexOf(s), segIdx))
      ensures Named(colNames, colIdxIndices, colIndices) && Keeps(old(colIndices), colIndices)
      ensures segIdx == 0 ==> next == NextSegment(s)
    {
      hide Named, Keeps;
      match side
      case FromRows(names) =>
        ghost var columns;
        next, columns := BuildIndexFromRows(names, segIdx, have);
      case FromJoin(index, byName) =>
        next := BuildIndexFromJoin(index, byName, segIdx, have, IndexOf(s));
        if Width(s) > 0 {
          LastIsTop(s);
        }
    }

    /** JoinIter::joinIndex. The index it builds is that of the nesting, by position and by name. */
    method JoinIndex(left: Side, right: Side, ghost l: Shape, ghost r: Shape)
      requires colIdxIndices == map[] && colIndices == map[] && Describes(left, l) && Describes(right, r)
      requires Width(l) + Width(r) <= |colNames|
      modifies this
      ensures Holds(colIdxIndices, IndexOf(Join(l, r)))
      ensures LeftFirst(colNames, IndexOf(Join(l, r)), Width(l), colIndices)
      ensures Describes(FromJoin(colIdxIndices, colIndices), Join(l, r))
    {
      hide Named, Keeps, LeftFirst;
      assert Named(colNames, map[], map[]) by { NothingNamed(colNames); }
      var nextSeg := BuildIndexFrom(left, 0, [], l);
      assert [] + Shift(IndexOf(l), 0) == IndexOf(l);
      ghost var t0, by0 := colIdxIndices, colIndices;
      var ignored := BuildIndexFrom(right, nextSeg, IndexOf(l), r);
      LeftWins(colNames, t0, IndexOf(l), by0, colIdxIndices, IndexOf(Join(l, r)), colIndices);
      NamedEmpty(colNames, colIdxIndices, colIndices);
    }
  }

  lemma ColumnWithin(names: seq<string>, columns: map<string, nat>, name: string)
    requires FirstColumns(names, |names|, columns) && name in columns
    ensures columns[name] < |names|
  {
  }

  lemma KeepsItself(a: Names)
    ensures Keeps(a, a)
  {
  }

  lemma NothingNamed(names: seq<string>)
    ensures Named(names, map[], map[])
  {
  }

  /** What joinIndex sees of each side. */
  datatype Side = FromRows(names: seq<string>) | FromJoin(index: Table, byName: Names)

  ghost predicate Describes(side: Side, s: Shape) {
    match side
    case FromRows(names) => s == Base(|names|) && Differ(names)
    case FromJoin(index, byName) => s.Join? && Holds(index, IndexOf(s)) && (byName == map[] <==> index == map[])
  }
}
