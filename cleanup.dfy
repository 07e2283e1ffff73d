/**
 * The handle and faction lists read from the social-graph worksheet: the values of one
 * column from row 2 to `max_row`, then for the handles the truthy values only, and for
 * the factions `list(dict.fromkeys(...))` followed by `remove("Faction")` and
 * `remove("")` when those are present.
 */
module Cleanup {
  import opened Wrappers
  import opened Sheet

  /** The header text and the empty text that the faction clean-up removes. */
  const HeaderFaction: Option<Cell> := Some(Text("Faction"))
  const BlankFaction: Option<Cell> := Some(Text(""))

  /** `[sheet.cell(row=i, column=col).value for i in range(2, maxRow + 1)]`. */
  function Column(grid: Grid, col: int, maxRow: int): seq<Option<Cell>>
  {
    seq(if maxRow < 2 then 0 else maxRow - 1, k => Get(grid, (k + 2, col)))
  }

  predicate NoDup<T(==)>(s: seq<T>)
  {
    forall i, j :: 0 <= i < j < |s| ==> s[i] != s[j]
  }

  /** The position of the first occurrence of x: the entry that `list.remove(x)` deletes. */
  function IndexOf<T(==)>(s: seq<T>, x: T): (k: nat)
    requires x in s
    ensures k < |s| && s[k] == x
    ensures forall m :: 0 <= m < k ==> s[m] != x
  {
    if s[0] == x then 0 else 1 + IndexOf(s[1..], x)
  }

  /** The elements of r appear in the order of their first occurrences in s. */
  predicate FirstOccurrenceOrder<T(==)>(s: seq<T>, r: seq<T>)
  {
    forall i, j :: 0 <= i < j < |r| ==> r[i] in s && r[j] in s && IndexOf(s, r[i]) < IndexOf(s, r[j])
  }

  /**
   * r is the column without duplicates and without the values in `excluded`, in the order of
   * first occurrences.
   */
  predicate Cleaned<T(==)>(column: seq<T>, r: seq<T>, excluded: set<T>)
  {
    && NoDup(r)
    && (forall i :: 0 <= i < |r| ==> r[i] in column && r[i] !in excluded)
    && (forall i :: 0 <= i < |column| ==> column[i] in excluded || column[i] in r)
    && FirstOccurrenceOrder(column, r)
  }

  /** The positions of the truthy cells of a column, in increasing order. */
  function TruthyPositions(column: seq<Option<Cell>>): (pos: seq<nat>)
    ensures forall k :: 0 <= k < |pos| ==> pos[k] < |column| && Truthy(column[pos[k]])
    ensures forall k, m :: 0 <= k < m < |pos| ==> pos[k] < pos[m]
    ensures forall i :: 0 <= i < |column| && Truthy(column[i]) ==> i in pos
    decreases |column|
  {
    if |column| == 0 then []
    else
      var n := |column| - 1;
      var init := TruthyPositions(column[..n]);
      assert forall k :: 0 <= k < |init| ==> column[init[k]] == column[..n][init[k]];
      assert forall i :: 0 <= i < n ==> column[..n][i] == column[i];
      init + (if Truthy(column[n]) then [n] else [])
  }

  /**
   * `[handle for handle in handles if handle]`: the truthy values, in column order and with
   * their repeats. Handle k is the value of the cell at the k-th truthy position, and every
   * truthy cell gives a handle.
   */
  function CleanHandles(column: seq<Option<Cell>>): (r: seq<Cell>)
    ensures |r| == |TruthyPositions(column)|
    ensures forall k :: 0 <= k < |r| ==> column[TruthyPositions(column)[k]] == Some(r[k])
    decreases |column|
  {
    if |column| == 0 then []
    else
      var n := |column| - 1;
      var init := CleanHandles(column[..n]);
      assert forall k :: 0 <= k < |init| ==> column[TruthyPositions(column[..n])[k]] == Some(init[k]);
      init + (if Truthy(column[n]) then [column[n].value] else [])
  }

  /** `list(dict.fromkeys(s))`: one entry per distinct value, at the place it first occurs. */
  function Dedup<T(==)>(s: seq<T>): (r: seq<T>)
    ensures NoDup(r)
    ensures forall i :: 0 <= i < |r| ==> r[i] in s
    ensures forall i :: 0 <= i < |s| ==> s[i] in r
    decreases |s|
  {
    if |s| == 0 then []
    else
      var d := Dedup(s[..|s| - 1]);
      if s[|s| - 1] in d then d else d + [s[|s| - 1]]
  }

  /** `s.remove(x)` on a list that holds x: the first occurrence of x is dropped. */
  function RemoveFirst<T(==)>(s: seq<T>, x: T): seq<T>
    requires x in s
  {
    s[..IndexOf(s, x)] + s[IndexOf(s, x) + 1..]
  }

  /** `if x in s: s.remove(x)`. */
  function DropFirst<T(==)>(s: seq<T>, x: T): seq<T>
  {
    if x in s then RemoveFirst(s, x) else s
  }

  /**
   * The faction list: no value twice, every value of the column except the header text
   * "Faction" and the empty text, and in the order in which the values first occur. An
   * empty cell (None) is neither of the two texts, so it stays in the list.
   */
  method CleanFactions(column: seq<Option<Cell>>) returns (factions: seq<Option<Cell>>)
    ensures NoDup(factions)
    ensures forall f :: f in factions <==> f in column && f != HeaderFaction && f != BlankFaction
    ensures FirstOccurrenceOrder(column, factions)
  {
    factions := Dedup(column);
    ghost var deduped := factions;
    if HeaderFaction in factions {
      factions := RemoveFirst(factions, HeaderFaction);
    }
    assert factions == DropFirst(deduped, HeaderFaction);
    ghost var withoutHeader := factions;
    if BlankFaction in factions {
      factions := RemoveFirst(factions, BlankFaction);
    }
    assert factions == DropFirst(withoutHeader, BlankFaction);
    FactionsCleaned(column);
  }

  // ---------------------------------------------------------------------------
  // Lemmas
  // ---------------------------------------------------------------------------

  /** The first occurrence of a value found in a prefix is its first occurrence in the whole sequence. */
  lemma IndexOfPrefix<T>(s: seq<T>, m: nat, x: T)
    requires m <= |s| && x in s[..m]
    ensures IndexOf(s, x) == IndexOf(s[..m], x) < m
  {
    var kp := IndexOf(s[..m], x);
    assert s[kp] == x;
    var k := IndexOf(s, x);
    assert k <= kp;
    assert s[..m][k] == s[k];
  }

  /** `dict.fromkeys` keeps the order of first occurrences. */
  lemma {:induction false} DedupOrder<T>(s: seq<T>)
    ensures FirstOccurrenceOrder(s, Dedup(s))
    decreases |s|
  {
    if |s| > 0 {
      DedupOrder(s[..|s| - 1]);
      forall i, j | 0 <= i < j < |Dedup(s)|
        ensures Dedup(s)[i] in s && Dedup(s)[j] in s && IndexOf(s, Dedup(s)[i]) < IndexOf(s, Dedup(s)[j])
      {
        DedupOrderStep(s, i, j);
      }
    }
  }

  /** One pair of entries of `Dedup(s)`, given the order for s without its last value. */
  lemma DedupOrderStep<T>(s: seq<T>, i: int, j: int)
    requires |s| > 0 && FirstOccurrenceOrder(s[..|s| - 1], Dedup(s[..|s| - 1]))
    requires 0 <= i < j < |Dedup(s)|
    ensures Dedup(s)[i] in s && Dedup(s)[j] in s && IndexOf(s, Dedup(s)[i]) < IndexOf(s, Dedup(s)[j])
  {
    var p, last := s[..|s| - 1], s[|s| - 1];
    var d := Dedup(p);
    assert Dedup(s) == if last in d then d else d + [last];
    if j < |d| {
      OrderKeptInPrefix(s, |s| - 1, d[i], d[j]);
    } else {
      OrderBeforeLast(s, d[i]);
    }
  }

  /** Two values ordered by first occurrence in a prefix keep that order in the whole sequence. */
  lemma OrderKeptInPrefix<T>(s: seq<T>, m: nat, x: T, y: T)
    requires m <= |s| && x in s[..m] && y in s[..m]
    requires IndexOf(s[..m], x) < IndexOf(s[..m], y)
    ensures x in s && y in s && IndexOf(s, x) < IndexOf(s, y)
  {
    IndexOfPrefix(s, m, x);
    IndexOfPrefix(s, m, y);
  }

  /** A value of the prefix is first found before a last value that the prefix lacks. */
  lemma OrderBeforeLast<T>(s: seq<T>, x: T)
    requires |s| > 0 && x in s[..|s| - 1] && s[|s| - 1] !in s[..|s| - 1]
    ensures x in s && IndexOf(s, x) < IndexOf(s, s[|s| - 1])
  {
  }

  /** The three steps of the faction clean-up leave the column cleaned of the two texts. */
  lemma FactionsCleaned(column: seq<Option<Cell>>)
    ensures var r := DropFirst(DropFirst(Dedup(column), HeaderFaction), BlankFaction);
            && NoDup(r)
            && (forall f :: f in r <==> f in column && f != HeaderFaction && f != BlankFaction)
            && FirstOccurrenceOrder(column, r)
  {
    var deduped := Dedup(column);
    DedupKeeps(column);
    DropKeeps(column, deduped, {}, HeaderFaction);
    var withoutHeader := DropFirst(deduped, HeaderFaction);
    DropKeeps(column, withoutHeader, {} + {HeaderFaction}, BlankFaction);
    CleanedMembers(column, DropFirst(withoutHeader, BlankFaction), {} + {HeaderFaction} + {BlankFaction});
  }

  /** `dict.fromkeys` keeps every value once and in the order of first occurrences. */
  lemma DedupKeeps<T>(s: seq<T>)
    ensures Cleaned(s, Dedup(s), {})
  {
    DedupOrder(s);
  }

  /** A cleaned list holds exactly the column's values outside `excluded`. */
  lemma CleanedMembers<T>(column: seq<T>, r: seq<T>, excluded: set<T>)
    requires Cleaned(column, r, excluded)
    ensures forall x :: x in r <==> x in column && x !in excluded
  {
  }

  /** `if x in s: s.remove(x)` on a cleaned list leaves a cleaned list that also excludes x. */
  lemma DropKeeps<T>(column: seq<T>, s: seq<T>, excluded: set<T>, x: T)
    requires Cleaned(column, s, excluded)
    ensures Cleaned(column, DropFirst(s, x), excluded + {x})
  {
    if x in s {
      RemoveFirstKeeps(column, s, excluded, x);
    }
  }

  /** `remove(x)` shifts every entry after the first x one place to the left. */
  lemma RemoveFirstAt<T>(s: seq<T>, x: T)
    requires x in s
    ensures |RemoveFirst(s, x)| == |s| - 1
    ensures forall i :: 0 <= i < |s| - 1 ==>
              RemoveFirst(s, x)[i] == s[if i < IndexOf(s, x) then i else i + 1]
  {
  }

  /**
   * On a cleaned list, `remove(x)` leaves a cleaned list that also excludes x: the other
   * values, still once each and in their previous relative order.
   */
  lemma RemoveFirstKeeps<T>(column: seq<T>, s: seq<T>, excluded: set<T>, x: T)
    requires x in s && Cleaned(column, s, excluded)
    ensures Cleaned(column, RemoveFirst(s, x), excluded + {x})
  {
    RemoveFirstOrder(column, s, x);
    RemoveFirstInside(column, s, excluded, x);
    RemoveFirstCovers(column, s, excluded, x);
  }

  /** `remove(x)` keeps the remaining entries distinct and in their order. */
  lemma RemoveFirstOrder<T>(column: seq<T>, s: seq<T>, x: T)
    requires x in s && NoDup(s) && FirstOccurrenceOrder(column, s)
    ensures NoDup(RemoveFirst(s, x)) && FirstOccurrenceOrder(column, RemoveFirst(s, x))
  {
  }

  /** After `remove(x)` every entry is a column value outside `excluded` and other than x. */
  lemma RemoveFirstInside<T>(column: seq<T>, s: seq<T>, excluded: set<T>, x: T)
    requires x in s && NoDup(s)
    requires forall i :: 0 <= i < |s| ==> s[i] in column && s[i] !in excluded
    ensures forall i :: 0 <= i < |RemoveFirst(s, x)| ==>
              RemoveFirst(s, x)[i] in column && RemoveFirst(s, x)[i] !in excluded + {x}
  {
  }

  /** After `remove(x)` every column value outside `excluded` other than x is still an entry. */
  lemma RemoveFirstCovers<T>(column: seq<T>, s: seq<T>, excluded: set<T>, x: T)
    requires x in s
    requires forall i :: 0 <= i < |column| ==> column[i] in excluded || column[i] in s
    ensures forall i :: 0 <= i < |column| ==> column[i] in excluded + {x} || column[i] in RemoveFirst(s, x)
  {
  }

  /** Handle k stands on worksheet row p + 2 of the handle column, p its truthy position. */
  lemma HandlePositions(grid: Grid, maxRow: int, k: int)
    requires 0 <= k < |CleanHandles(Column(grid, HandlesCol + 1, maxRow))|
    ensures var column := Column(grid, HandlesCol + 1, maxRow);
            Get(grid, (TruthyPositions(column)[k] + 2, HandlesCol + 1)) == Some(CleanHandles(column)[k])
  {
  }

  /** With no falsy cell, the truthy positions are all the positions of the column. */
  lemma {:induction false} AllPositionsTruthy(column: seq<Option<Cell>>)
    requires forall k :: 0 <= k < |column| ==> Truthy(column[k])
    ensures TruthyPositions(column) == seq(|column|, k => k)
    decreases |column|
  {
    if |column| > 0 {
      var n := |column| - 1;
      assert forall k :: 0 <= k < n ==> column[..n][k] == column[k];
      AllPositionsTruthy(column[..n]);
    }
  }

  /** With no falsy cell in the column, the handle list is the column itself, position by position. */
  lemma HandlesAlignedWithoutBlanks(column: seq<Option<Cell>>)
    requires forall k :: 0 <= k < |column| ==> Truthy(column[k])
    ensures |CleanHandles(column)| == |column|
    ensures forall k :: 0 <= k < |column| ==> Some(CleanHandles(column)[k]) == column[k]
  {
    AllPositionsTruthy(column);
  }

  /**
   * With no falsy cell among the handles, handle i stands on worksheet row i + 2, the row
   * in which the pair loop writes the x values of the pairs it follows.
   */
  lemma HandleRows(grid: Grid, maxRow: int, i: int)
    requires var column := Column(grid, HandlesCol + 1, maxRow);
             forall k :: 0 <= k < |column| ==> Truthy(column[k])
    requires 0 <= i < |CleanHandles(Column(grid, HandlesCol + 1, maxRow))|
    ensures Get(grid, (i + 2, HandlesCol + 1)) == Some(CleanHandles(Column(grid, HandlesCol + 1, maxRow))[i])
  {
    var column := Column(grid, HandlesCol + 1, maxRow);
    AllPositionsTruthy(column);
    HandlePositions(grid, maxRow, i);
  }

  /**
   * An empty cell shifts the rows: with handles "a" on row 2, nothing on row 3 and "b" on
   * row 4, "b" is handle 1, so its pairs' x values go to row 3 instead of row 4.
   */
  lemma BlankHandleShiftsRows()
    ensures var grid := map[(2, HandlesCol + 1) := Text("a"), (4, HandlesCol + 1) := Text("b")];
            var handles := CleanHandles(Column(grid, HandlesCol + 1, 4));
            && handles == [Text("a"), Text("b")]
            && Get(grid, (1 + 2, HandlesCol + 1)) == None
            && Get(grid, (4, HandlesCol + 1)) == Some(handles[1])
  {
    var grid := map[(2, HandlesCol + 1) := Text("a"), (4, HandlesCol + 1) := Text("b")];
    var column := Column(grid, HandlesCol + 1, 4);
    assert column == [Some(Text("a")), None, Some(Text("b"))];
    assert column[..2][..1] == [Some(Text("a"))];
    assert CleanHandles(column[..2]) == [Text("a")];
  }
}
