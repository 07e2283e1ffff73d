# Microblog social graph — a Dafny model of its core

The Streamlit script `streamlit_app.py` builds a follow graph between social-media
personas. It reads:
- a persona table (handle, faction, follower count and two derived probabilities);
- a worksheet listing handles and factions;
- a table of affinities between factions.

For every pair of positions i < j in the handle list it runs a two-pass random "who
follows whom" decision once, with handle i as the followed and handle j as the follower;
the pair is never evaluated the other way round. Each positive result becomes a directed edge of the graph and a number written
into the worksheet.

This project models three parts of that script:

- **The follow decision** `whats_the_friendship` (module `Friendship`), as a pure function.
  - The persona table is a map from handle to persona.
  - The affinity table is a sequence of rows kept in table order.
  - The two calls `randrange(100)` are the parameters `firstRoll` and `secondRoll` in 0..99.
  - It returns `(x, y)`:
    - x is 3 when "a is followed by b" fires, else 0;
    - y is 1 when "b is followed by a" fires, else 0.
- **The node loop and the pair loop** (module `Enumeration`), as methods with loops.
  - Each loop is proved against a specification function:
    - the node loop against the set and the count of known handles;
    - the pair loop against a fold `At` giving the state before each pair (i, j). The state holds the edges, the worksheet and how many dice were drawn.
  - The random source is an infinite stream of dice `rolls: nat -> Roll`. A decision reads the next two dice when both handles are known. When it returns early it reads none.
- **The handle and faction clean-up** (module `Cleanup`):
  - the column read from row 2 to `max_row`;
  - the truthiness filter on handles;
  - `list(dict.fromkeys(...))` followed by the two conditional `remove` calls on factions.

`Sheet` models the worksheet: a sparse map from (row, column) to a text or integer cell,
where an absent key is an empty cell (None) and Python truthiness is spelled out.
`Wrappers` holds `Option`.

Where the code and its own comments disagree, the model follows the code:

- **The mutual-follow guard (line 115)** tests `x == 1 and y == 3`. x is only ever 0 or 3, and y only 0 or 1. So the guard never holds and the marker 2 is never produced. `ReciprocityUnreachable` proves this.
- **The override `affinity_between_factions = 1` (lines 77 and 97)** has no effect. The same-faction likelihood never reads the affinity (`SameFactionIgnoresAffinities`).
- **The second pass (line 106)** uses the affinity of a's faction towards b's faction, not the reverse (`CrossFactionUsesForwardAffinity`).
- **`if handle` (line 143)** drops None, the empty string and 0, not only None (`CleanHandles`).
- **The faction clean-up** removes the texts "Faction" and "" but keeps None, the value of an empty cell (`CleanFactions`).
- **The x-cell of pair (i, j)** is written at row i + 2, column j + 4, and the y-cell at row j + 2, column i + 4:
  - The y-cells of the pairs (0, j) fall in column 4, the faction column (`FirstHandleYCellsInFactionColumn`).
  - Once an empty handle cell has been filtered out, handle i no longer stands on row i + 2 (`BlankHandleShiftsRows`).

## Model

| member | source | states |
|---|---|---|
| Friendship.AffinityLookup | streamlit_app.py:68-71 | the affinity of the first matching row, or the default 0.1 without one; pinned down by `FirstRowWins`, `MissingRowGivesDefault` and `OtherRowIgnored` |
| Friendship.OtherRowIgnored | streamlit_app.py:69 | inserting, at any position, a row for a different pair of factions leaves the lookup unchanged |
| Friendship.Known | streamlit_app.py:60-63 | the membership test `a in attraction_df.TwHandle.values` (also line 175) for a table keyed by text handles; an unknown handle gives (0, 0) by `UnknownHandleGivesNothing`, and the node set is the known handles by `KnownHandles` |
| Friendship.FirstMatch | streamlit_app.py:69-71 | None exactly when no affinity row matches (faction_a, faction_b); otherwise the index of a matching row with no match before it |
| Friendship.MissingRowGivesDefault | streamlit_app.py:68-71 | with no row for the two factions the affinity is the default 0.1 |
| Friendship.FirstRowWins | streamlit_app.py:69 | with matching rows the affinity is that of the first one, whatever rows follow |
| Friendship.WhatsTheFriendship | streamlit_app.py:58-119 | x is 0 or 3 and y is 0 or 1; an unknown handle on either side gives (0, 0) |
| Friendship.SameFactionAdjustment | streamlit_app.py:75-83 | the same-faction likelihood is Prob4Faction, plus 0.2 exactly when 5000 < followers < 10000, minus 0.1 exactly when followers < 1000 |
| Friendship.AdjustmentBands | streamlit_app.py:79-83 | the two adjustments never both apply; each band's likelihood is stated, and outside both it is Prob4Faction itself |
| Friendship.SameFactionLikelihood | streamlit_app.py:75-83 | the same-faction likelihood; its value in every follower band is stated by `SameFactionAdjustment` and `AdjustmentBands` |
| Friendship.PassLikelihood | streamlit_app.py:75-86 | Prob4Faction with the adjustments within one faction, ProbOverAll times the affinity across factions; used for both passes (lines 95-106), as `ReciprocityUnreachable` and `CrossFactionUsesForwardAffinity` state |
| Friendship.Fires | streamlit_app.py:88-92 | the firing rule `likelihood > randrange(100) / 100`; characterised by `FiresBelowScaledLikelihood`, `FiresBounds` and `FiresMonotone` (the second pass at lines 108-112 uses it too) |
| Friendship.FiresMonotone | streamlit_app.py:88-92 | a pass that fires keeps firing for a higher likelihood or a lower roll |
| Friendship.FiresBounds | streamlit_app.py:88-92 | a likelihood of at most 0 never fires; one above 0.99 fires on every roll |
| Friendship.FiresBelowScaledLikelihood | streamlit_app.py:88-89 | a pass fires exactly on the rolls below 100 times the likelihood |
| Friendship.UnknownHandleGivesNothing | streamlit_app.py:60-64 | a handle missing from the persona table gives (0, 0) and draws no dice |
| Friendship.DrawsUsed | streamlit_app.py:60-64 | two dice when both handles are known (lines 88 and 108), none on the early returns, as `UnknownHandleGivesNothing` states |
| Friendship.ReciprocityUnreachable | streamlit_app.py:89-117 | with both handles known, x is 3 iff the first pass fires and y is 1 iff the second does; neither value is ever 2 |
| Friendship.SameFactionIgnoresAffinities | streamlit_app.py:75-103 | within one faction, swapping the affinity table for any other one leaves the decision unchanged |
| Friendship.CrossFactionUsesForwardAffinity | streamlit_app.py:69-106 | across factions both passes compare ProbOverAll times the a-to-b affinity with their die; a row for the reverse direction, inserted at any position, changes nothing |
| Friendship.LowerRollsKeepFiring | streamlit_app.py:88-112 | lowering either die never lowers x or y |
| Friendship.LowDiceFireBoth | streamlit_app.py:88-112 | dice below 100 times both likelihoods give exactly (3, 1) |
| Friendship.SameFactionScenario | streamlit_app.py:75-103 | one faction, 500 and 6000 followers: the passes compare Prob4Faction(A) - 0.1 and Prob4Faction(B) + 0.2 with the dice |
| Friendship.CrossFactionDefaultScenario | streamlit_app.py:68-106 | two factions with only a reverse-direction row: both passes use ProbOverAll times the default 0.1 |
| Enumeration.KnownCount | streamlit_app.py:173-185 | the number of known handles is at most the list length, and equals it iff every handle is known |
| Enumeration.KnownHandles | streamlit_app.py:173-181 | a cell is in the set iff it is in the handle list and known to the persona table |
| Enumeration.AddNodes | streamlit_app.py:173-185 | the nodes are exactly the known handles; the counter advances once per known entry |
| Enumeration.Decide | streamlit_app.py:197 | the call `whats_the_friendship(followed, follower, ...)` on the next two dice of the stream; its effect is described through `PairStep`, `StepSheet` and `StepEdges` |
| Enumeration.PairStep | streamlit_app.py:193-204 | the effect of one inner iteration, spelled out cell by cell by `StepSheet`/`StepSheetOther` and edge by edge by `StepEdges` |
| Enumeration.EvaluatePair | streamlit_app.py:193-204 | one iteration of the inner loop leaves the state `PairStep` describes: each positive value adds its edge and its worksheet value, and the dice cursor moves past the dice drawn |
| Enumeration.AddEdges | streamlit_app.py:191-211 | the loop ends in the state the fold `Final` gives for no edges, the given worksheet and no dice drawn; it runs once per pair, n(n-1)/2 times |
| Enumeration.PairsBeforeCount | streamlit_app.py:169 | rows 0 to i - 1 hold i(2n - i - 1)/2 pairs, so all rows hold n(n - 1)/2, the pair part of `total_steps` |
| Enumeration.BuildSocialGraph | streamlit_app.py:169-211 | `total_steps` is n + n(n-1)/2; nodes and edges are those of the two loops; every edge joins two nodes; the progress counter never exceeds the total and reaches it iff every handle is known |
| Enumeration.XCell | streamlit_app.py:201 | the cell `row=i + 2, column=j + 4` that x of pair (i, j) is written to; `CellPlacement` and `CellsDistinct` state where these cells lie |
| Enumeration.YCell | streamlit_app.py:204 | the cell `row=j + 2, column=i + 4` that y of pair (i, j) is written to; `CellPlacement` and `CellsDistinct` state where these cells lie |
| Enumeration.CellPlacement | streamlit_app.py:199-204 | x-cells lie above the diagonal and y-cells below it; every x-cell is right of the faction column |
| Enumeration.CellsDistinct | streamlit_app.py:199-204 | distinct pairs never share an x-cell or a y-cell, and no x-cell is a y-cell |
| Enumeration.FirstHandleYCellsInFactionColumn | streamlit_app.py:204 | the y-cell of pair (0, j) is row j + 2 of column FACTIONS_COL + 1 |
| Enumeration.StepSheet | streamlit_app.py:199-204 | one iteration writes x into its x-cell and y into its y-cell when positive, and changes no other cell |
| Enumeration.StepSheetOther | streamlit_app.py:199-204 | one iteration leaves every cell other than its own two as it was |
| Enumeration.SheetFrame | streamlit_app.py:191-204 | a cell no earlier pair owns is as it was at the start |
| Enumeration.CellKept | streamlit_app.py:191-204 | no pair after (a, b) changes the x-cell or the y-cell of (a, b) |
| Enumeration.PairCells | streamlit_app.py:191-204 | after pair (a, b), its x-cell holds x if x > 0 and the original value otherwise, and likewise its y-cell and y |
| Enumeration.RunCells | streamlit_app.py:191-204 | after the loop, an x-cell holds 3 where its pair's x fired and a y-cell holds 1 where y fired; otherwise the original value |
| Enumeration.RunFrame | streamlit_app.py:191-204 | after the loop, a cell that belongs to no pair is unchanged |
| Enumeration.StepEdges | streamlit_app.py:199-203 | one iteration's edges are the previous ones plus those its decision records |
| Enumeration.EdgesOnlyGrow | streamlit_app.py:191-203 | the loop never removes an edge |
| Enumeration.EdgesKept | streamlit_app.py:191-203 | every edge present after pair (a, b) is present at every later point |
| Enumeration.EdgesComplete | streamlit_app.py:191-203 | every edge an earlier pair records is present |
| Enumeration.EdgesSound | streamlit_app.py:191-203 | every edge present that was not there at the start was recorded by an earlier pair |
| Enumeration.RunEdges | streamlit_app.py:191-203 | after the loop, an edge is present iff some pair records it: follower to followed for x, followed to follower for y |
| Enumeration.RunEdgesJoinKnownHandles | streamlit_app.py:173-203 | every edge joins two entries of the handle list known to the persona table |
| Sheet.Get | streamlit_app.py:142 | `sheet.cell(row=r, column=c).value`, None for an empty cell; the reads of both columns (also line 145) are related to rows by `HandlePositions` |
| Sheet.Truthy | streamlit_app.py:143 | Python truthiness of a cell value: None, "" and 0 are false; applied by `CleanHandles` |
| Cleanup.Column | streamlit_app.py:142 | the cells of one column from row 2 to `max_row`; the handle column's are related to rows by `HandlePositions` and `HandleRows`, and the same read gives the faction column (line 145) |
| Cleanup.TruthyPositions | streamlit_app.py:143 | strictly increasing positions of the column, each a truthy cell, and every truthy cell's position among them |
| Cleanup.IndexOf | streamlit_app.py:147-150 | the position of the first occurrence: in range, holding the value, with no earlier occurrence |
| Cleanup.CleanHandles | streamlit_app.py:142-143 | one handle per truthy position, in column order and with repeats: handle k is the value of the cell at the k-th truthy position |
| Cleanup.Dedup | streamlit_app.py:146 | no duplicates, every entry is a column value, and every column value is an entry |
| Cleanup.DedupOrder | streamlit_app.py:146 | the entries keep the order of their first occurrences in the column |
| Cleanup.DedupKeeps | streamlit_app.py:146 | `dict.fromkeys` leaves the column cleaned (distinct entries, all values, first-occurrence order) with nothing excluded |
| Cleanup.RemoveFirst | streamlit_app.py:148 | `list.remove(x)`: the first occurrence dropped, as `RemoveFirstAt` and `RemoveFirstKeeps` state (also line 150) |
| Cleanup.DropFirst | streamlit_app.py:147-150 | `if x in s: s.remove(x)`, the list unchanged without x; `DropKeeps` states what it preserves |
| Cleanup.RemoveFirstAt | streamlit_app.py:148 | `remove(x)` shortens the list by one and shifts the entries after the first x one place left |
| Cleanup.RemoveFirstKeeps | streamlit_app.py:147-150 | on a cleaned list, `remove(x)` leaves one cleaned that also excludes x |
| Cleanup.DropKeeps | streamlit_app.py:147-150 | the same for `if x in s: s.remove(x)`, whether or not x is present |
| Cleanup.FactionsCleaned | streamlit_app.py:145-150 | the three steps give distinct entries, exactly the column values other than "Faction" and "", in first-occurrence order |
| Cleanup.CleanFactions | streamlit_app.py:145-150 | no duplicates; a value is a faction iff the column holds it and it is not "Faction" or ""; first-occurrence order |
| Cleanup.HandlesAlignedWithoutBlanks | streamlit_app.py:142-143 | with no falsy cell, the handle list is the column cell by cell |
| Cleanup.HandlePositions | streamlit_app.py:142-143 | handle k stands on worksheet row p + 2 of the handle column, p the k-th truthy position, whether or not the column has blanks |
| Cleanup.AllPositionsTruthy | streamlit_app.py:143 | with no falsy cell, the truthy positions are 0, 1, ..., n - 1 |
| Cleanup.HandleRows | streamlit_app.py:142-143 | with no falsy cell, handle i stands on worksheet row i + 2, the row its x-cells are written to |
| Cleanup.BlankHandleShiftsRows | streamlit_app.py:142-143 | an empty cell between "a" and "b" makes "b" handle 1, written as row 3, while "b" stands on row 4 |

## Left out

- The Streamlit interface (title, uploads, `st.write`, `st.table`, the progress bar and its text) produces no result the model covers. This includes the message at line 72. Only the integer progress counter is kept.
- Reading the Excel files with pandas and openpyxl, and saving the output workbook, are file I/O. The worksheet is a parameter, and `max_row` is a parameter of `Cleanup.Column`.
- The derivation of Prob4Faction and ProbOverAll and the `head(1000)` truncation (lines 129-135) are pandas group arithmetic. The persona table arrives with both probabilities already computed.
- The code takes the first persona row when a handle appears twice (line 66). The model's persona table is a map keyed by handle, so it holds one row per handle.
- The pyvis graph, its options and the node titles built from bio and faction (lines 177-183) are rendering. Nodes and edges are modelled as sets of cells.
- The random source is left out. Each `randrange(100)` is the next value of a given stream of dice in 0..99.
- Friendship.WhatsTheFriendship: likelihoods and affinities are exact reals, not IEEE doubles. Rounding and NaN (a missing affinity value read by pandas) are not modelled.
- Friendship.Known: the persona table is keyed by text, so a number handle is always unknown and skipped. In the code it is found by line 60 when pandas reads TwHandle as numbers, and line 181 then raises TypeError in both the try and the except, ending the run. A persona whose faction is not text (a missing NaN faction) crashes line 181 the same way; the model's factions are always text.
- The exception handlers at lines 182 and 205-206 are not modelled, because nothing in the model raises. A cell value outside text and whole numbers (a float or a date) is not a `Sheet.Cell`.
- The construction of `factions_df` (lines 153-156) only displays data and is not modelled.
