/** Boxes for the jobs of a DAG: one column per level, one row per job of the level. */
module Layout {
  import opened Graphs
  import opened Levels

  const NODE_W := 170
  const NODE_H := 66
  const COL_GAP := 88
  const ROW_GAP := 18
  const MARGIN := 16

  type Point = (int, int)

  function LevelOf(levels: map<string, nat>, id: string): nat
  {
    if id in levels then levels[id] else 0
  }

  function At(col: nat, row: nat): Point
  {
    (col * (NODE_W + COL_GAP) + MARGIN, MARGIN + row * (NODE_H + ROW_GAP))
  }

  /** The boxes with these upper left corners have no point in common. */
  predicate Apart(p: Point, q: Point)
  {
    p.0 + NODE_W <= q.0 || q.0 + NODE_W <= p.0 || p.1 + NODE_H <= q.1 || q.1 + NODE_H <= p.1
  }

  predicate Inside(p: Point, width: int, height: int)
  {
    && MARGIN <= p.0 && p.0 + NODE_W + MARGIN <= width
    && MARGIN <= p.1 && p.1 + NODE_H + MARGIN <= height
  }

  /** In the column of this level and in some row. */
  ghost predicate Drawn(p: Point, level: nat)
  {
    p.0 == 16 + 258 * level && exists row: nat :: p.1 == 16 + 84 * row
  }

  type Columns = map<nat, seq<string>>

  ghost predicate InColumn(cols: Columns, levels: map<string, nat>, id: string)
  {
    LevelOf(levels, id) in cols && id in cols[LevelOf(levels, id)]
  }

  /** Each column lists the jobs of its level. */
  ghost predicate ColumnsOk(cols: Columns, levels: map<string, nat>, placed: seq<string>)
  {
    && (forall c, r :: c in cols && 0 <= r < |cols[c]| ==> LevelOf(levels, cols[c][r]) == c && cols[c][r] in placed)
    && (forall i :: 0 <= i < |placed| ==> InColumn(cols, levels, placed[i]))
  }

  function Append(cols: Columns, c: nat, id: string): Columns
  {
    cols[c := (if c in cols then cols[c] else []) + [id]]
  }

  lemma AppendOk(cols: Columns, levels: map<string, nat>, placed: seq<string>, id: string)
    requires ColumnsOk(cols, levels, placed)
    ensures ColumnsOk(Append(cols, LevelOf(levels, id), id), levels, placed + [id])
  {
  }

  method BuildColumns(jobs: seq<string>, levels: map<string, nat>) returns (cols: Columns)
    ensures ColumnsOk(cols, levels, jobs)
  {
    cols := map[];
    for i := 0 to |jobs|
      invariant ColumnsOk(cols, levels, jobs[..i])
    {
      AppendOk(cols, levels, jobs[..i], jobs[i]);
      assert jobs[..i + 1] == jobs[..i] + [jobs[i]];
      cols := Append(cols, LevelOf(levels, jobs[i]), jobs[i]);
    }
    assert jobs[..|jobs|] == jobs;
  }

  ghost predicate PlacedAt(column: seq<string>, positions: map<string, Point>, c: nat, rows: nat, id: string)
    requires rows <= |column|
  {
    id in positions && exists r :: 0 <= r < rows && column[r] == id && positions[id] == At(c, r)
  }

  /** The jobs in the first rows of a column have their boxes there; one listed twice keeps the later. */
  ghost predicate Placed(cols: Columns, positions: map<string, Point>, c: nat, rows: nat)
    requires c in cols && rows <= |cols[c]|
  {
    forall r :: 0 <= r < rows ==> PlacedAt(cols[c], positions, c, rows, cols[c][r])
  }

  /** One column of boxes. */
  method PlaceColumn(cols: Columns, c: nat, ghost levels: map<string, nat>, ghost jobs: seq<string>,
      positions0: map<string, Point>)
    returns (positions: map<string, Point>)
    requires ColumnsOk(cols, levels, jobs) && c in cols
    ensures Placed(cols, positions, c, |cols[c]|)
    ensures forall d :: d in cols && d != c && Placed(cols, positions0, d, |cols[d]|) ==>
      Placed(cols, positions, d, |cols[d]|)
  {
    positions := positions0;
    var x := c * (NODE_W + COL_GAP) + MARGIN;
    for row := 0 to |cols[c]|
      invariant Placed(cols, positions, c, row)
      invariant forall id :: id in positions0 && LevelOf(levels, id) != c ==>
        id in positions && positions[id] == positions0[id]
    {
      positions := positions[cols[c][row] := (x, MARGIN + row * (NODE_H + ROW_GAP))];
    }
  }

  method MaxColumn(cols: Columns) returns (maxCol: nat, maxRows: nat)
    ensures forall c :: c in cols ==> c <= maxCol && |cols[c]| <= maxRows
    ensures cols != map[] ==> maxCol in cols && exists c :: c in cols && |cols[c]| == maxRows
    ensures cols == map[] ==> maxCol == 0 && maxRows == 1
  {
    if cols == map[] {
      return 0, 1;
    }
    var first :| first in cols;
    maxCol, maxRows := first, |cols[first]|;
    var rest := cols.Keys - {first};
    while rest != {}
      invariant rest <= cols.Keys && maxCol in cols && exists c :: c in cols && |cols[c]| == maxRows
      invariant forall c :: c in cols && c !in rest ==> c <= maxCol && |cols[c]| <= maxRows
    {
      var c :| c in rest;
      maxCol := if c > maxCol then c else maxCol;
      maxRows := if |cols[c]| > maxRows then |cols[c]| else maxRows;
      rest := rest - {c};
    }
  }

  /**
   The drawing, in pixels: every job has its box of 170 by 66 in the column of its level, 258 apart, and
   in some row, 84 apart; no two jobs' boxes overlap; all lie inside, as far as a margin of 16 allows.
   */
  method PlaceJobs(jobs: seq<string>, levels: map<string, nat>)
    returns (positions: map<string, Point>, width: int, height: int)
    ensures forall i :: 0 <= i < |jobs| ==>
      && jobs[i] in positions
      && positions[jobs[i]].0 == LevelOf(levels, jobs[i]) * (NODE_W + COL_GAP) + MARGIN
      && Inside(positions[jobs[i]], width, height)
    ensures forall i, k :: 0 <= i < |jobs| && 0 <= k < |jobs| && jobs[i] != jobs[k] ==>
      Apart(positions[jobs[i]], positions[jobs[k]])
    ensures forall id :: id in jobs ==> id in positions && Drawn(positions[id], if id in levels then levels[id] else 0)
    ensures forall id :: id in jobs ==>
      && 16 <= positions[id].0 && positions[id].0 + 170 + 16 <= width
      && 16 <= positions[id].1 && positions[id].1 + 66 + 16 <= height
    ensures forall id, other :: id in jobs && other in jobs && id != other ==>
      || positions[id].0 + 170 <= positions[other].0 || positions[other].0 + 170 <= positions[id].0
      || positions[id].1 + 66 <= positions[other].1 || positions[other].1 + 66 <= positions[id].1
  {
    var cols := BuildColumns(jobs, levels);
    positions := map[];
    var rest := cols.Keys;
    while rest != {}
      invariant rest <= cols.Keys
      invariant forall c :: c in cols && c !in rest ==> Placed(cols, positions, c, |cols[c]|)
    {
      var c :| c in rest;
      positions := PlaceColumn(cols, c, levels, jobs, positions);
      rest := rest - {c};
    }
    var maxCol, maxRows := MaxColumn(cols);
    width := (maxCol + 1) * (NODE_W + COL_GAP) + 32;
    height := maxRows * (NODE_H + ROW_GAP) + 32;
    forall i | 0 <= i < |jobs|
      ensures jobs[i] in positions && positions[jobs[i]].0 == LevelOf(levels, jobs[i]) * (NODE_W + COL_GAP) + MARGIN
      ensures Inside(positions[jobs[i]], width, height)
      ensures Drawn(positions[jobs[i]], LevelOf(levels, jobs[i]))
    {
      var r := BoxIs(cols, levels, jobs, positions, i);
      BoxInside(LevelOf(levels, jobs[i]), r, maxCol, maxRows);
      BoxDrawn(LevelOf(levels, jobs[i]), r);
    }
    forall i, k | 0 <= i < |jobs| && 0 <= k < |jobs| && jobs[i] != jobs[k]
      ensures Apart(positions[jobs[i]], positions[jobs[k]])
    {
      var r := BoxIs(cols, levels, jobs, positions, i);
      var s := BoxIs(cols, levels, jobs, positions, k);
      BoxesApart(LevelOf(levels, jobs[i]), r, LevelOf(levels, jobs[k]), s);
    }
  }

  lemma BoxIs(cols: Columns, levels: map<string, nat>, jobs: seq<string>, positions: map<string, Point>, i: nat)
    returns (row: nat)
    requires ColumnsOk(cols, levels, jobs) && i < |jobs|
    requires forall c :: c in cols ==> Placed(cols, positions, c, |cols[c]|)
    ensures var c := LevelOf(levels, jobs[i]);
      c in cols && row < |cols[c]| && cols[c][row] == jobs[i] && jobs[i] in positions &&
        positions[jobs[i]] == At(c, row)
  {
    var c := LevelOf(levels, jobs[i]);
    assert InColumn(cols, levels, jobs[i]);
    var r :| 0 <= r < |cols[c]| && cols[c][r] == jobs[i];
    assert Placed(cols, positions, c, |cols[c]|);
    assert PlacedAt(cols[c], positions, c, |cols[c]|, cols[c][r]);
    row :| 0 <= row < |cols[c]| && cols[c][row] == jobs[i] && positions[jobs[i]] == At(c, row);
  }

  lemma BoxInside(c: nat, r: nat, maxCol: nat, maxRows: nat)
    requires c <= maxCol && r < maxRows
    ensures Inside(At(c, r), (maxCol + 1) * (NODE_W + COL_GAP) + 32, maxRows * (NODE_H + ROW_GAP) + 32)
  {
  }

  lemma BoxDrawn(c: nat, r: nat)
    ensures Drawn(At(c, r), c)
  {
    assert At(c, r).1 == 16 + 84 * r;
  }

  lemma BoxesApart(c: nat, r: nat, d: nat, s: nat)
    requires c != d || r != s
    ensures Apart(At(c, r), At(d, s))
  {
  }

  /** On an acyclic graph, drawn by its levels, every parent's box ends to the left of its child's. */
  lemma EdgesPointRight(g: Graph, levels: map<string, nat>, child: string, parent: string)
    requires child in levels && parent in levels && Edge(g, child, parent)
    requires Longest(g, child, levels[child]) && Longest(g, parent, levels[parent])
    ensures At(LevelOf(levels, parent), 0).0 + NODE_W < At(LevelOf(levels, child), 0).0
    ensures 16 + 258 * levels[parent] + 170 < 16 + 258 * levels[child]
  {
    ParentIsLeft(g, child, parent, levels[child], levels[parent]);
  }
}
