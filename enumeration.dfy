/**
 * The main block's two loops over the cleaned handle list: the node loop, which adds
 * every handle found in the persona table as a node, and the pair loop, which calls the
 * follow decision once for every index pair i < j (followed = handles[i], follower =
 * handles[j]), records the directed edges and writes the decision values into the
 * worksheet.
 *
 * The pyvis graph is modelled by the set of nodes and the set of directed edges handed to
 * it, the worksheet by its cell map, and the random source by an infinite stream of dice
 * `rolls`, of which each decision reads the next two values when it draws at all.
 */
module Enumeration {
  import opened Wrappers
  import opened Sheet
  import opened Friendship

  /** A directed edge (source, target), as passed to `g.add_edge(source, target)`. */
  type Edge = (Cell, Cell)

  /** Everything the pair loop reads. */
  datatype Inputs = Inputs(handles: seq<Cell>, personas: PersonaTable, affinities: seq<AffinityRow>,
                           rolls: nat -> Roll)

  /** What the pair loop has changed so far: the edges, the worksheet and how many dice were drawn. */
  datatype EdgeState = EdgeState(edges: set<Edge>, sheet: Grid, draws: nat)

  /** The cell written for x of pair (i, j): row i + 2, column j + 4. */
  function XCell(i: int, j: int): (int, int)
  {
    (i + 2, j + 4)
  }

  /** The cell written for y of pair (i, j): row j + 2, column i + 4. */
  function YCell(i: int, j: int): (int, int)
  {
    (j + 2, i + 4)
  }

  /** The decision for pair (i, j) on the next two dice of the stream. */
  function Decide(run: Inputs, st: EdgeState, i: int, j: int): (int, int)
    requires 0 <= i < j < |run.handles|
  {
    WhatsTheFriendship(run.handles[i], run.handles[j], run.personas, run.affinities,
                       run.rolls(st.draws), run.rolls(st.draws + 1))
  }

  /**
   * One iteration of the inner loop, for pair (i, j): the specification that the method
   * `EvaluatePair` implements and that `StepSheet` and `StepEdges` spell out.
   */
  function PairStep(run: Inputs, i: int, j: int, st: EdgeState): EdgeState
    requires 0 <= i < j < |run.handles|
  {
    var followed, follower := run.handles[i], run.handles[j];
    var r := Decide(run, st, i, j);
    var edges1 := if r.0 > 0 then st.edges + {(follower, followed)} else st.edges;
    var sheet1 := if r.0 > 0 then st.sheet[XCell(i, j) := Number(r.0)] else st.sheet;
    var edges2 := if r.1 > 0 then edges1 + {(followed, follower)} else edges1;
    var sheet2 := if r.1 > 0 then sheet1[YCell(i, j) := Number(r.1)] else sheet1;
    EdgeState(edges2, sheet2, st.draws + DrawsUsed(run.personas, followed, follower))
  }

  /**
   * The state just before pair (i, j) is evaluated, starting from `start`; (i, i + 1) is
   * the start of row i, and (i, |handles|) its end.
   */
  function At(run: Inputs, start: EdgeState, i: nat, j: nat): EdgeState
    requires i < j <= |run.handles|
    decreases i, j
  {
    if j == i + 1 then RowStart(run, start, i)
    else PairStep(run, i, j - 1, At(run, start, i, j - 1))
  }

  /** The state at the start of row i: the start state for row 0, the end of row i - 1 otherwise. */
  function RowStart(run: Inputs, start: EdgeState, i: nat): EdgeState
    requires i < |run.handles|
    decreases i, 0
  {
    if i == 0 then start else At(run, start, i - 1, |run.handles|)
  }

  /** The state after the whole pair loop. */
  function Final(run: Inputs, start: EdgeState): EdgeState
  {
    if |run.handles| == 0 then start else At(run, start, |run.handles| - 1, |run.handles|)
  }

  /** The decision the loop takes for pair (a, b), on the dice the stream holds at that point. */
  function PairOutcome(run: Inputs, start: EdgeState, a: nat, b: nat): (int, int)
    requires a < b < |run.handles|
  {
    Decide(run, At(run, start, a, b), a, b)
  }

  /** Pair (a, b) is enumerated before pair (i, j). */
  predicate Before(a: int, b: int, i: int, j: int)
  {
    a < i || (a == i && b < j)
  }

  /** `key` is the x-cell or the y-cell of a pair enumerated before (i, j). */
  predicate WrittenBefore(n: int, key: (int, int), i: int, j: int)
  {
    var r, c := key.0 - 2, key.1 - 4;
    (0 <= r < c < n && Before(r, c, i, j)) || (0 <= c < r < n && Before(c, r, i, j))
  }

  /** `key` is the x-cell or the y-cell of some pair of n handles. */
  predicate PairCell(n: int, key: (int, int))
  {
    var r, c := key.0 - 2, key.1 - 4;
    0 <= r < n && 0 <= c < n && r != c
  }

  /** Edge e is one that decision r for pair (a, b) records: follower to followed for x, back for y. */
  predicate Recorded(handles: seq<Cell>, r: (int, int), a: nat, b: nat, e: Edge)
    requires a < b < |handles|
  {
    (r.0 > 0 && e == (handles[b], handles[a])) || (r.1 > 0 && e == (handles[a], handles[b]))
  }

  /** Edge e is one that pair (a, b) records. */
  predicate EdgeOfPair(run: Inputs, start: EdgeState, a: nat, b: nat, e: Edge)
    requires a < b < |run.handles|
  {
    Recorded(run.handles, PairOutcome(run, start, a, b), a, b, e)
  }

  /** Row i > 0 starts in the state row i - 1 ends in. */
  lemma AtRowStart(run: Inputs, start: EdgeState, i: nat)
    requires 0 < i < |run.handles|
    ensures At(run, start, i, i + 1) == At(run, start, i - 1, |run.handles|)
  {
  }

  /** Inside a row, the state before (i, j) is that before (i, j - 1) after pair (i, j - 1). */
  lemma AtStep(run: Inputs, start: EdgeState, i: nat, j: nat)
    requires i + 1 < j <= |run.handles|
    ensures At(run, start, i, j) == PairStep(run, i, j - 1, At(run, start, i, j - 1))
  {
  }

  // ---------------------------------------------------------------------------
  // The loops
  // ---------------------------------------------------------------------------

  /** How many entries of `handles` are handles of the persona table. */
  function KnownCount(personas: PersonaTable, handles: seq<Cell>): (r: nat)
    ensures r <= |handles|
    ensures r == |handles| <==> forall k :: 0 <= k < |handles| ==> Known(personas, handles[k])
  {
    if |handles| == 0 then 0
    else
      KnownCount(personas, handles[..|handles| - 1]) + (if Known(personas, handles[|handles| - 1]) then 1 else 0)
  }

  /** The entries of `handles` found in the persona table. */
  function KnownHandles(personas: PersonaTable, handles: seq<Cell>): (r: set<Cell>)
    ensures forall c :: c in r <==> c in handles && Known(personas, c)
  {
    if |handles| == 0 then {}
    else
      var prefix, last := handles[..|handles| - 1], handles[|handles| - 1];
      assert handles == prefix + [last];
      KnownHandles(personas, prefix) + (if Known(personas, last) then {last} else {})
  }

  /**
   * The node loop: every entry found in the persona table is added as a node and advances
   * the progress counter; the others are skipped, and advance nothing.
   */
  method AddNodes(handles: seq<Cell>, personas: PersonaTable) returns (nodes: set<Cell>, steps: nat)
    ensures nodes == set c | c in handles && Known(personas, c)
    ensures steps == KnownCount(personas, handles)
  {
    nodes, steps := {}, 0;
    for i := 0 to |handles|
      invariant nodes == KnownHandles(personas, handles[..i])
      invariant steps == KnownCount(personas, handles[..i])
    {
      assert handles[..i + 1][..i] == handles[..i];
      var persona := handles[i];
      if !Known(personas, persona) {
        continue;
      }
      nodes := nodes + {persona};
      steps := steps + 1;
    }
    assert handles[..|handles|] == handles;
  }

  /**
   * The pair loop. It starts with no edges, the given worksheet and no dice drawn, and
   * ends in the state `Final` describes; `calls` counts its iterations, one per pair.
   */
  method AddEdges(handles: seq<Cell>, personas: PersonaTable, affinities: seq<AffinityRow>, rolls: nat -> Roll,
                  sheet: Grid)
    returns (edges: set<Edge>, newSheet: Grid, draws: nat, calls: nat)
    ensures EdgeState(edges, newSheet, draws) == Final(Inputs(handles, personas, affinities, rolls),
                                                       EdgeState({}, sheet, 0))
    ensures calls == |handles| * (|handles| - 1) / 2
  {
    var n := |handles|;
    ghost var run := Inputs(handles, personas, affinities, rolls);
    ghost var start := EdgeState({}, sheet, 0);
    edges, newSheet, draws, calls := {}, sheet, 0, 0;
    ghost var st := start;
    for i := 0 to n
      invariant st == EdgeState(edges, newSheet, draws)
      invariant i < n ==> st == At(run, start, i, i + 1)
      invariant i == n ==> st == Final(run, start)
      invariant calls == PairsBefore(n, i)
    {
      for j := i + 1 to n
        invariant st == EdgeState(edges, newSheet, draws)
        invariant st == At(run, start, i, j)
        invariant calls == PairsBefore(n, i) + (j - i - 1)
      {
        edges, newSheet, draws := EvaluatePair(handles, personas, affinities, rolls, i, j, edges, newSheet, draws);
        calls := calls + 1;
        st := PairStep(run, i, j, st);
      }
    }
    PairsBeforeCount(n, n);
  }

  /**
   * The body of the inner loop for followed = handles[i] and follower = handles[j]: one
   * decision on the next two dice, an edge and a worksheet value for each positive result.
   */
  method EvaluatePair(handles: seq<Cell>, personas: PersonaTable, affinities: seq<AffinityRow>, rolls: nat -> Roll,
                      i: nat, j: nat, edges: set<Edge>, sheet: Grid, draws: nat)
    returns (newEdges: set<Edge>, newSheet: Grid, newDraws: nat)
    requires i < j < |handles|
    ensures EdgeState(newEdges, newSheet, newDraws) ==
            PairStep(Inputs(handles, personas, affinities, rolls), i, j, EdgeState(edges, sheet, draws))
  {
    var followed, follower := handles[i], handles[j];
    var r := WhatsTheFriendship(followed, follower, personas, affinities, rolls(draws), rolls(draws + 1));
    newEdges, newSheet := edges, sheet;
    if r.0 > 0 {
      newEdges := newEdges + {(follower, followed)};
      newSheet := newSheet[XCell(i, j) := Number(r.0)];
    }
    if r.1 > 0 {
      newEdges := newEdges + {(followed, follower)};
      newSheet := newSheet[YCell(i, j) := Number(r.1)];
    }
    newDraws := draws + DrawsUsed(personas, followed, follower);
  }

  /** The number of pairs (a, b) with a < i of n handles: n - 1 in row 0, n - 2 in row 1, ... */
  function PairsBefore(n: nat, i: nat): nat
    requires i <= n
  {
    if i == 0 then 0 else PairsBefore(n, i - 1) + (n - i)
  }

  /**
   * Both loops and the progress counter `step`: the counter advances once per node added and
   * once per pair, against the `total_steps` of one per handle and one per pair.
   */
  method BuildSocialGraph(handles: seq<Cell>, personas: PersonaTable, affinities: seq<AffinityRow>,
                          rolls: nat -> Roll, sheet: Grid)
    returns (nodes: set<Cell>, edges: set<Edge>, newSheet: Grid, step: nat, totalSteps: nat)
    ensures totalSteps == |handles| + |handles| * (|handles| - 1) / 2
    ensures nodes == set c | c in handles && Known(personas, c)
    ensures var final := Final(Inputs(handles, personas, affinities, rolls), EdgeState({}, sheet, 0));
            edges == final.edges && newSheet == final.sheet
    ensures forall e :: e in edges ==> e.0 in nodes && e.1 in nodes
    ensures step <= totalSteps
    ensures step == totalSteps <==> forall k :: 0 <= k < |handles| ==> Known(personas, handles[k])
  {
    totalSteps := |handles| + (|handles| * (|handles| - 1)) / 2;
    var nodeSteps;
    nodes, nodeSteps := AddNodes(handles, personas);
    var draws, calls;
    edges, newSheet, draws, calls := AddEdges(handles, personas, affinities, rolls, sheet);
    step := nodeSteps + calls;
    forall e | e in edges
      ensures e.0 in nodes && e.1 in nodes
    {
      RunEdgesJoinKnownHandles(Inputs(handles, personas, affinities, rolls), sheet, e);
    }
  }

  /** Rows 0 to i - 1 hold i * (2n - i - 1) / 2 pairs, so all rows hold n(n - 1) / 2. */
  lemma {:induction false} PairsBeforeCount(n: nat, i: nat)
    requires i <= n
    ensures 2 * PairsBefore(n, i) == i * (2 * n - i - 1)
    ensures i == n ==> PairsBefore(n, i) == n * (n - 1) / 2
  {
    if i > 0 {
      PairsBeforeCount(n, i - 1);
    }
  }

  // ---------------------------------------------------------------------------
  // The worksheet
  // ---------------------------------------------------------------------------

  /** x-cells lie above the diagonal (row - 2 < column - 4), y-cells below it, none on it. */
  lemma CellPlacement(i: int, j: int)
    requires 0 <= i < j
    ensures XCell(i, j).0 - 2 < XCell(i, j).1 - 4
    ensures YCell(i, j).0 - 2 > YCell(i, j).1 - 4
    ensures XCell(i, j).1 > FactionsCol + 1
  {
  }

  /** Distinct pairs never share a cell, and no x-cell is a y-cell. */
  lemma CellsDistinct(a: int, b: int, c: int, d: int)
    requires 0 <= a < b && 0 <= c < d
    ensures XCell(a, b) == XCell(c, d) ==> a == c && b == d
    ensures YCell(a, b) == YCell(c, d) ==> a == c && b == d
    ensures XCell(a, b) != YCell(c, d)
  {
  }

  /**
   * The y-cells of the pairs (0, j) lie in column 4, the column the faction list is
   * read from: for the first handle, y overwrites the faction cells of the rows below it.
   */
  lemma FirstHandleYCellsInFactionColumn(j: int)
    requires 0 < j
    ensures YCell(0, j) == (j + 2, FactionsCol + 1)
  {
  }

  /** A cell no pair before (i, j) writes is as it was at the start. */
  lemma {:induction false} SheetFrame(run: Inputs, start: EdgeState, i: nat, j: nat, key: (int, int))
    requires i < j <= |run.handles|
    requires !WrittenBefore(|run.handles|, key, i, j)
    ensures Get(At(run, start, i, j).sheet, key) == Get(start.sheet, key)
    decreases i, j
  {
    if j == i + 1 {
      if i > 0 {
        SheetFrame(run, start, i - 1, |run.handles|, key);
      }
    } else {
      SheetFrame(run, start, i, j - 1, key);
    }
  }

  /** What one iteration does to a cell: it writes x into the x-cell and y into the y-cell when they are positive. */
  lemma StepSheet(run: Inputs, st: EdgeState, i: nat, j: nat, key: (int, int))
    requires i < j < |run.handles|
    ensures var r := Decide(run, st, i, j);
            Get(PairStep(run, i, j, st).sheet, key) ==
              if key == XCell(i, j) && r.0 > 0 then Some(Number(r.0))
              else if key == YCell(i, j) && r.1 > 0 then Some(Number(r.1))
              else Get(st.sheet, key)
  {
  }

  /** No pair after (a, b) changes the x-cell or the y-cell of (a, b). */
  lemma {:induction false} CellKept(run: Inputs, start: EdgeState, a: nat, b: nat, i: nat, j: nat, key: (int, int))
    requires i < j <= |run.handles| && a < b < |run.handles| && Before(a, b, i, j)
    requires key == XCell(a, b) || key == YCell(a, b)
    ensures Get(At(run, start, i, j).sheet, key) == Get(At(run, start, a, b + 1).sheet, key)
    decreases i, j
  {
    if j == i + 1 {
      if i > 0 {
        AtRowStart(run, start, i);
        CellKept(run, start, a, b, i - 1, |run.handles|, key);
        assert Get(At(run, start, i, j).sheet, key) == Get(At(run, start, a, b + 1).sheet, key);
      }
    } else {
      var prev := At(run, start, i, j - 1);
      AtStep(run, start, i, j);
      if !(a == i && b == j - 1) {
        StepSheetOther(run, prev, i, j - 1, key);
        assert Get(At(run, start, i, j).sheet, key) == Get(prev.sheet, key);
        CellKept(run, start, a, b, i, j - 1, key);
        assert Get(prev.sheet, key) == Get(At(run, start, a, b + 1).sheet, key);
      } else {
        assert Get(At(run, start, i, j).sheet, key) == Get(At(run, start, a, b + 1).sheet, key);
      }
    }
  }

  /** An iteration leaves every cell other than its own two as it was. */
  lemma StepSheetOther(run: Inputs, st: EdgeState, i: nat, j: nat, key: (int, int))
    requires i < j < |run.handles| && key != XCell(i, j) && key != YCell(i, j)
    ensures Get(PairStep(run, i, j, st).sheet, key) == Get(st.sheet, key)
  {
  }

  /**
   * Once pair (a, b) is evaluated its x-cell holds x when x > 0 and is untouched otherwise,
   * and likewise its y-cell and y; no later pair changes either cell.
   */
  lemma PairCells(run: Inputs, start: EdgeState, i: nat, j: nat, a: nat, b: nat)
    requires i < j <= |run.handles| && a < b < |run.handles| && Before(a, b, i, j)
    ensures var r := PairOutcome(run, start, a, b);
            var sheet := At(run, start, i, j).sheet;
            && Get(sheet, XCell(a, b)) == (if r.0 > 0 then Some(Number(r.0)) else Get(start.sheet, XCell(a, b)))
            && Get(sheet, YCell(a, b)) == (if r.1 > 0 then Some(Number(r.1)) else Get(start.sheet, YCell(a, b)))
  {
    var before := At(run, start, a, b);
    StepSheet(run, before, a, b, XCell(a, b));
    StepSheet(run, before, a, b, YCell(a, b));
    SheetFrame(run, start, a, b, XCell(a, b));
    SheetFrame(run, start, a, b, YCell(a, b));
    CellKept(run, start, a, b, i, j, XCell(a, b));
    CellKept(run, start, a, b, i, j, YCell(a, b));
  }

  /** Over the whole loop: each pair's cells hold its decision values and only those. */
  lemma RunCells(run: Inputs, sheet: Grid, a: nat, b: nat)
    requires a < b < |run.handles|
    ensures var start := EdgeState({}, sheet, 0);
            var r := PairOutcome(run, start, a, b);
            var final := Final(run, start).sheet;
            && Get(final, XCell(a, b)) == (if r.0 > 0 then Some(Number(3)) else Get(sheet, XCell(a, b)))
            && Get(final, YCell(a, b)) == (if r.1 > 0 then Some(Number(1)) else Get(sheet, YCell(a, b)))
  {
    PairCells(run, EdgeState({}, sheet, 0), |run.handles| - 1, |run.handles|, a, b);
  }

  /** Over the whole loop: a cell that is no pair's x-cell or y-cell does not change. */
  lemma RunFrame(run: Inputs, sheet: Grid, key: (int, int))
    requires !PairCell(|run.handles|, key)
    ensures Get(Final(run, EdgeState({}, sheet, 0)).sheet, key) == Get(sheet, key)
  {
    var n := |run.handles|;
    if n > 0 {
      SheetFrame(run, EdgeState({}, sheet, 0), n - 1, n, key);
    }
  }

  // ---------------------------------------------------------------------------
  // The edges
  // ---------------------------------------------------------------------------

  /** What one iteration does to the edges: it adds those its decision records. */
  lemma StepEdges(run: Inputs, st: EdgeState, i: nat, j: nat, e: Edge)
    requires i < j < |run.handles|
    ensures e in PairStep(run, i, j, st).edges <==> e in st.edges || Recorded(run.handles, Decide(run, st, i, j), i, j, e)
  {
  }

  /** The loop only adds edges. */
  lemma {:induction false} EdgesOnlyGrow(run: Inputs, start: EdgeState, i: nat, j: nat)
    requires i < j <= |run.handles|
    ensures start.edges <= At(run, start, i, j).edges
    decreases i, j
  {
    if j == i + 1 {
      if i > 0 {
        EdgesOnlyGrow(run, start, i - 1, |run.handles|);
      }
    } else {
      EdgesOnlyGrow(run, start, i, j - 1);
    }
  }

  /** The edges present right after pair (a, b) are still present at every later (i, j). */
  lemma {:induction false} EdgesKept(run: Inputs, start: EdgeState, a: nat, b: nat, i: nat, j: nat)
    requires i < j <= |run.handles| && a < b < |run.handles| && Before(a, b, i, j)
    ensures At(run, start, a, b + 1).edges <= At(run, start, i, j).edges
    decreases i, j
  {
    if j == i + 1 {
      if i > 0 {
        EdgesKept(run, start, a, b, i - 1, |run.handles|);
      }
    } else if !(a == i && b == j - 1) {
      EdgesKept(run, start, a, b, i, j - 1);
    }
  }

  /** Every edge a pair before (i, j) records is present at (i, j). */
  lemma EdgesComplete(run: Inputs, start: EdgeState, i: nat, j: nat, a: nat, b: nat, e: Edge)
    requires i < j <= |run.handles| && a < b < |run.handles| && Before(a, b, i, j)
    requires EdgeOfPair(run, start, a, b, e)
    ensures e in At(run, start, i, j).edges
  {
    StepEdges(run, At(run, start, a, b), a, b, e);
    EdgesKept(run, start, a, b, i, j);
  }

  /** Every edge present at (i, j) was there at the start or was recorded by a pair before (i, j). */
  lemma {:induction false} EdgesSound(run: Inputs, start: EdgeState, i: nat, j: nat, e: Edge)
    requires i < j <= |run.handles|
    requires e in At(run, start, i, j).edges && e !in start.edges
    ensures exists a: nat, b: nat :: a < b < |run.handles| && Before(a, b, i, j) && EdgeOfPair(run, start, a, b, e)
    decreases i, j
  {
    if j == i + 1 {
      if i > 0 {
        EdgesSound(run, start, i - 1, |run.handles|, e);
        var a: nat, b: nat :| a < b < |run.handles| && Before(a, b, i - 1, |run.handles|) && EdgeOfPair(run, start, a, b, e);
        assert Before(a, b, i, j);
      }
    } else if e in At(run, start, i, j - 1).edges {
      StepEdges(run, At(run, start, i, j - 1), i, j - 1, e);
      EdgesSound(run, start, i, j - 1, e);
      var a: nat, b: nat :| a < b < |run.handles| && Before(a, b, i, j - 1) && EdgeOfPair(run, start, a, b, e);
      assert Before(a, b, i, j);
    } else {
      StepEdges(run, At(run, start, i, j - 1), i, j - 1, e);
      assert EdgeOfPair(run, start, i, j - 1, e);
    }
  }

  /** Over the whole loop: the edges are exactly those the pairs record. */
  lemma RunEdges(run: Inputs, sheet: Grid, e: Edge)
    ensures var start := EdgeState({}, sheet, 0);
            e in Final(run, start).edges <==>
            exists a: nat, b: nat :: a < b < |run.handles| && EdgeOfPair(run, start, a, b, e)
  {
    var start := EdgeState({}, sheet, 0);
    var n := |run.handles|;
    if n > 0 && e in Final(run, start).edges {
      EdgesSound(run, start, n - 1, n, e);
    }
    if exists a: nat, b: nat :: a < b < n && EdgeOfPair(run, start, a, b, e) {
      var a: nat, b: nat :| a < b < n && EdgeOfPair(run, start, a, b, e);
      EdgesComplete(run, start, n - 1, n, a, b, e);
    }
  }

  /** Every recorded edge joins two entries of the handle list that the persona table knows, i.e. two nodes. */
  lemma RunEdgesJoinKnownHandles(run: Inputs, sheet: Grid, e: Edge)
    requires e in Final(run, EdgeState({}, sheet, 0)).edges
    ensures e.0 in run.handles && e.1 in run.handles
    ensures Known(run.personas, e.0) && Known(run.personas, e.1)
  {
    RunEdges(run, sheet, e);
    var start := EdgeState({}, sheet, 0);
    var a: nat, b: nat :| a < b < |run.handles| && EdgeOfPair(run, start, a, b, e);
    assert Known(run.personas, run.handles[a]) && Known(run.personas, run.handles[b]);
  }
}
