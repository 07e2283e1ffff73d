/**
 * The follow decision `whats_the_friendship(a, b, attraction_df, affinity_df)`.
 *
 * The persona table (`attraction_df`) becomes a map from handle to persona, the
 * affinity table (`affinity_df`) a sequence of rows kept in table order, and the two
 * calls `randrange(100)` become the parameters `firstRoll` and `secondRoll`, so the
 * decision is a function. It answers a pair (x, y): x is 3 when the first pass
 * ("a is followed by b") fires and 0 otherwise, y is 1 when the second pass
 * ("b is followed by a") fires and 0 otherwise.
 */
module Friendship {
  import opened Wrappers
  import opened Sheet

  /** Affinity used when the affinity table has no row for the two factions. */
  const DefaultAffinity: real := 0.1

  /** The follower-count literals of the same-faction adjustment. */
  const LowFollowers: int := 1000
  const BoostFloor: int := 5000
  const BoostCeiling: int := 10000
  const Boost: real := 0.2
  const Penalty: real := 0.1

  /** One value of `randrange(100)`. */
  type Roll = r: int | 0 <= r < 100

  /** A row of the persona table: faction, follower count and the two derived probabilities. */
  datatype Persona = Persona(faction: string, followers: int, prob4Faction: real, probOverAll: real)

  type PersonaTable = map<string, Persona>

  /** A row of the affinity table: the affinity of `faction` towards `otherFaction`. */
  datatype AffinityRow = AffinityRow(faction: string, otherFaction: string, affinity: real)

  /**
   * `a in attraction_df.TwHandle.values` for a persona table keyed by text handles: a text
   * cell is known when the table holds it, and a number cell is never known.
   */
  predicate Known(personas: PersonaTable, c: Cell)
  {
    c.Text? && c.s in personas
  }

  predicate Matches(row: AffinityRow, factionA: string, factionB: string)
  {
    row.faction == factionA && row.otherFaction == factionB
  }

  /** Index of the first affinity row for (factionA, factionB), the row `.values[0]` selects. */
  function FirstMatch(rows: seq<AffinityRow>, factionA: string, factionB: string): (r: Option<nat>)
    ensures r.None? <==> forall k :: 0 <= k < |rows| ==> !Matches(rows[k], factionA, factionB)
    ensures r.Some? ==> r.value < |rows| && Matches(rows[r.value], factionA, factionB)
    ensures r.Some? ==> forall k :: 0 <= k < r.value ==> !Matches(rows[k], factionA, factionB)
  {
    if |rows| == 0 then None
    else if Matches(rows[0], factionA, factionB) then Some(0)
    else
      match FirstMatch(rows[1..], factionA, factionB)
      case None => None
      case Some(k) => Some(k + 1)
  }

  /** The affinity of factionA towards factionB, or the default when the table has no such row. */
  function AffinityLookup(rows: seq<AffinityRow>, factionA: string, factionB: string): real
  {
    match FirstMatch(rows, factionA, factionB)
    case Some(k) => rows[k].affinity
    case None => DefaultAffinity
  }

  /** The same-faction likelihood: Prob4Faction, then the two follower-count adjustments in order. */
  function SameFactionLikelihood(p: Persona): real
  {
    var boosted := if BoostFloor < p.followers < BoostCeiling then p.prob4Faction + Boost else p.prob4Faction;
    if p.followers < LowFollowers then boosted - Penalty else boosted
  }

  /** The likelihood of one pass for `subject`; `affinity` is only used across factions. */
  function PassLikelihood(subject: Persona, sameFaction: bool, affinity: real): real
  {
    if sameFaction then SameFactionLikelihood(subject) else subject.probOverAll * affinity
  }

  /** `likelihood_of_following > randrange(100) / 100`. */
  predicate Fires(likelihood: real, roll: Roll)
  {
    likelihood > roll as real / 100.0
  }

  /** The decision for the pair (a, b), with both dice given. */
  function WhatsTheFriendship(a: Cell, b: Cell, personas: PersonaTable, affinities: seq<AffinityRow>,
                              firstRoll: Roll, secondRoll: Roll): (r: (int, int))
    ensures r.0 == 0 || r.0 == 3
    ensures r.1 == 0 || r.1 == 1
    ensures !Known(personas, a) || !Known(personas, b) ==> r == (0, 0)
  {
    if !Known(personas, a) then (0, 0)
    else if !Known(personas, b) then (0, 0)
    else
      var pa, pb := personas[a.s], personas[b.s];
      var affinity := AffinityLookup(affinities, pa.faction, pb.faction);
      var sameFaction := pa.faction == pb.faction;
      var x := if Fires(PassLikelihood(pa, sameFaction, affinity), firstRoll) then 3 else 0;
      var y := if Fires(PassLikelihood(pb, sameFaction, affinity), secondRoll) then 1 else 0;
      // the reciprocity rule, guarded as the source guards it
      if x == 1 && y == 3 then (2, 2) else (x, y)
  }

  /** How many values of `randrange(100)` one decision draws: none when it returns early. */
  function DrawsUsed(personas: PersonaTable, a: Cell, b: Cell): nat
  {
    if Known(personas, a) && Known(personas, b) then 2 else 0
  }

  // ---------------------------------------------------------------------------
  // Lookup of the affinity table
  // ---------------------------------------------------------------------------

  /** Without a row for the two factions the lookup yields the default affinity, 0.1. */
  lemma MissingRowGivesDefault(rows: seq<AffinityRow>, factionA: string, factionB: string)
    requires forall k :: 0 <= k < |rows| ==> !Matches(rows[k], factionA, factionB)
    ensures AffinityLookup(rows, factionA, factionB) == DefaultAffinity
  {
  }

  /** With such rows the lookup yields the affinity of the first of them, whatever rows follow. */
  lemma FirstRowWins(rows: seq<AffinityRow>, k: nat, factionA: string, factionB: string)
    requires k < |rows| && Matches(rows[k], factionA, factionB)
    requires forall m :: 0 <= m < k ==> !Matches(rows[m], factionA, factionB)
    ensures AffinityLookup(rows, factionA, factionB) == rows[k].affinity
  {
  }

  /** A row for another pair of factions, inserted anywhere in the table, does not change the lookup. */
  lemma {:induction false} OtherRowIgnored(rows: seq<AffinityRow>, at: nat, row: AffinityRow,
                                           factionA: string, factionB: string)
    requires at <= |rows| && !Matches(row, factionA, factionB)
    ensures AffinityLookup(rows[..at] + [row] + rows[at..], factionA, factionB)
         == AffinityLookup(rows, factionA, factionB)
    decreases at
  {
    var inserted := rows[..at] + [row] + rows[at..];
    if at == 0 {
      assert inserted[1..] == rows;
      SkipHead(inserted, factionA, factionB);
    } else if !Matches(rows[0], factionA, factionB) {
      assert inserted[1..] == rows[1..][..at - 1] + [row] + rows[1..][at - 1..];
      OtherRowIgnored(rows[1..], at - 1, row, factionA, factionB);
      SkipHead(inserted, factionA, factionB);
      SkipHead(rows, factionA, factionB);
    }
  }

  /** A first row for other factions is skipped by the lookup. */
  lemma SkipHead(rows: seq<AffinityRow>, factionA: string, factionB: string)
    requires |rows| > 0 && !Matches(rows[0], factionA, factionB)
    ensures AffinityLookup(rows, factionA, factionB) == AffinityLookup(rows[1..], factionA, factionB)
  {
  }

  // ---------------------------------------------------------------------------
  // The same-faction likelihood
  // ---------------------------------------------------------------------------

  /** Prob4Faction plus 0.2 exactly when 5000 < followers < 10000, minus 0.1 exactly when followers < 1000. */
  lemma SameFactionAdjustment(p: Persona)
    ensures SameFactionLikelihood(p) ==
            p.prob4Faction
            + (if 5000 < p.followers < 10000 then 0.2 else 0.0)
            - (if p.followers < 1000 then 0.1 else 0.0)
  {
  }

  /** The two adjustments never both apply, and the likelihood is Prob4Faction itself outside both bands. */
  lemma AdjustmentBands(p: Persona)
    ensures !(5000 < p.followers < 10000 && p.followers < 1000)
    ensures p.followers < 1000 ==> SameFactionLikelihood(p) == p.prob4Faction - 0.1
    ensures 5000 < p.followers < 10000 ==> SameFactionLikelihood(p) == p.prob4Faction + 0.2
    ensures 1000 <= p.followers <= 5000 || 10000 <= p.followers ==> SameFactionLikelihood(p) == p.prob4Faction
  {
  }

  // ---------------------------------------------------------------------------
  // The firing rule
  // ---------------------------------------------------------------------------

  /** A pass fires for a higher likelihood or a lower roll whenever it fires for the original ones. */
  lemma FiresMonotone(low: real, high: real, smallRoll: Roll, bigRoll: Roll)
    requires low <= high && smallRoll <= bigRoll
    ensures Fires(low, bigRoll) ==> Fires(high, smallRoll)
  {
  }

  /** A likelihood of at most 0 never fires; one above 0.99 fires on every roll. */
  lemma FiresBounds(likelihood: real, roll: Roll)
    ensures likelihood <= 0.0 ==> !Fires(likelihood, roll)
    ensures likelihood > 0.99 ==> Fires(likelihood, roll)
  {
  }

  /** The rolls on which a pass fires are exactly those below 100 times the likelihood. */
  lemma FiresBelowScaledLikelihood(likelihood: real, roll: Roll)
    ensures Fires(likelihood, roll) <==> (roll as real) < 100.0 * likelihood
  {
  }

  // ---------------------------------------------------------------------------
  // The decision
  // ---------------------------------------------------------------------------

  /** A handle absent from the persona table yields (0, 0) whatever the other handle, the table and the dice. */
  lemma UnknownHandleGivesNothing(a: Cell, b: Cell, personas: PersonaTable, affinities: seq<AffinityRow>,
                                  firstRoll: Roll, secondRoll: Roll)
    requires !Known(personas, a) || !Known(personas, b)
    ensures WhatsTheFriendship(a, b, personas, affinities, firstRoll, secondRoll) == (0, 0)
    ensures DrawsUsed(personas, a, b) == 0
  {
  }

  /**
   * The reciprocity guard `x == 1 and y == 3` never holds: x is 3 exactly when both handles are
   * known and the first pass fires, y is 1 exactly when both are known and the second pass fires,
   * and the mutual-follow marker 2 is never produced, even when both passes fire.
   */
  lemma ReciprocityUnreachable(a: Cell, b: Cell, personas: PersonaTable, affinities: seq<AffinityRow>,
                               firstRoll: Roll, secondRoll: Roll)
    requires Known(personas, a) && Known(personas, b)
    ensures var r := WhatsTheFriendship(a, b, personas, affinities, firstRoll, secondRoll);
            var pa, pb := personas[a.s], personas[b.s];
            var same := pa.faction == pb.faction;
            var affinity := AffinityLookup(affinities, pa.faction, pb.faction);
            && r.0 != 2 && r.1 != 2
            && (r.0 == 3 <==> Fires(PassLikelihood(pa, same, affinity), firstRoll))
            && (r.1 == 1 <==> Fires(PassLikelihood(pb, same, affinity), secondRoll))
  {
  }

  /** Within one faction the affinity table is never consulted. */
  lemma SameFactionIgnoresAffinities(a: Cell, b: Cell, personas: PersonaTable,
                                     table1: seq<AffinityRow>, table2: seq<AffinityRow>,
                                     firstRoll: Roll, secondRoll: Roll)
    requires Known(personas, a) && Known(personas, b)
    requires personas[a.s].faction == personas[b.s].faction
    ensures WhatsTheFriendship(a, b, personas, table1, firstRoll, secondRoll)
         == WhatsTheFriendship(a, b, personas, table2, firstRoll, secondRoll)
  {
  }

  /**
   * Across factions both passes use the affinity of a's faction towards b's faction: a row
   * for the reverse direction, wherever it stands, changes nothing.
   */
  lemma CrossFactionUsesForwardAffinity(a: Cell, b: Cell, personas: PersonaTable, affinities: seq<AffinityRow>,
                                        reverse: real, at: nat, firstRoll: Roll, secondRoll: Roll)
    requires Known(personas, a) && Known(personas, b) && at <= |affinities|
    requires personas[a.s].faction != personas[b.s].faction
    ensures var pa, pb := personas[a.s], personas[b.s];
            var affinity := AffinityLookup(affinities, pa.faction, pb.faction);
            var r := WhatsTheFriendship(a, b, personas, affinities, firstRoll, secondRoll);
            && (r.0 == 3 <==> Fires(pa.probOverAll * affinity, firstRoll))
            && (r.1 == 1 <==> Fires(pb.probOverAll * affinity, secondRoll))
    ensures var fa, fb := personas[a.s].faction, personas[b.s].faction;
            var withReverse := affinities[..at] + [AffinityRow(fb, fa, reverse)] + affinities[at..];
            WhatsTheFriendship(a, b, personas, withReverse, firstRoll, secondRoll)
            == WhatsTheFriendship(a, b, personas, affinities, firstRoll, secondRoll)
  {
    var fa, fb := personas[a.s].faction, personas[b.s].faction;
    OtherRowIgnored(affinities, at, AffinityRow(fb, fa, reverse), fa, fb);
  }

  /** Lowering either die never switches a firing pass off. */
  lemma LowerRollsKeepFiring(a: Cell, b: Cell, personas: PersonaTable, affinities: seq<AffinityRow>,
                             firstRoll: Roll, secondRoll: Roll, lowerFirst: Roll, lowerSecond: Roll)
    requires lowerFirst <= firstRoll && lowerSecond <= secondRoll
    ensures var r := WhatsTheFriendship(a, b, personas, affinities, firstRoll, secondRoll);
            var s := WhatsTheFriendship(a, b, personas, affinities, lowerFirst, lowerSecond);
            r.0 <= s.0 && r.1 <= s.1
  {
  }

  /** Dice below both likelihoods make both passes fire, with the source's markers 3 and 1. */
  lemma LowDiceFireBoth(a: Cell, b: Cell, personas: PersonaTable, affinities: seq<AffinityRow>,
                        firstRoll: Roll, secondRoll: Roll)
    requires Known(personas, a) && Known(personas, b)
    requires var pa, pb := personas[a.s], personas[b.s];
             var same := pa.faction == pb.faction;
             var affinity := AffinityLookup(affinities, pa.faction, pb.faction);
             && (firstRoll as real) < 100.0 * PassLikelihood(pa, same, affinity)
             && (secondRoll as real) < 100.0 * PassLikelihood(pb, same, affinity)
    ensures WhatsTheFriendship(a, b, personas, affinities, firstRoll, secondRoll) == (3, 1)
  {
  }

  /**
   * Two personas of one faction with 500 and 6000 followers: the first pass compares
   * Prob4Faction(A) - 0.1 with the first die and the second Prob4Faction(B) + 0.2 with the second.
   */
  lemma SameFactionScenario(p4a: real, p4b: real, poa: real, pob: real, firstRoll: Roll, secondRoll: Roll)
    ensures var personas := map["A" := Persona("Blue", 500, p4a, poa), "B" := Persona("Blue", 6000, p4b, pob)];
            var r := WhatsTheFriendship(Text("A"), Text("B"), personas, [], firstRoll, secondRoll);
            && (r.0 == 3 <==> p4a - 0.1 > firstRoll as real / 100.0)
            && (r.1 == 1 <==> p4b + 0.2 > secondRoll as real / 100.0)
  {
  }

  /** Two personas of different factions and no affinity row: the likelihood is ProbOverAll times 0.1. */
  lemma CrossFactionDefaultScenario(p4a: real, p4b: real, poa: real, pob: real, firstRoll: Roll, secondRoll: Roll)
    ensures var personas := map["A" := Persona("Blue", 500, p4a, poa), "B" := Persona("Red", 6000, p4b, pob)];
            var r := WhatsTheFriendship(Text("A"), Text("B"), personas, [AffinityRow("Red", "Blue", 0.9)],
                                        firstRoll, secondRoll);
            && (r.0 == 3 <==> poa * 0.1 > firstRoll as real / 100.0)
            && (r.1 == 1 <==> pob * 0.1 > secondRoll as real / 100.0)
  {
  }
}
