/**
 The score model: one integer per ladder position, and LP deltas as score differences.

 A tier contributes a base (400 per tier from IRON = 0 to DIAMOND = 2400; UNRANKED counts as
 IRON; MASTER, GRANDMASTER and CHALLENGER all share 2800), the division an offset of 100 per step
 from IV = 0 to I = 300 (any other rank string contributes 0), and the LP are added as they are.
 */
module RankCalculator {
  import opened Ladder

  /** Tier base score, as the table lists it. */
  function TierValue(t: Tier): int {
    match t
    case Unranked => 0
    case Iron => 0
    case Bronze => 400
    case Silver => 800
    case Gold => 1200
    case Platinum => 1600
    case Emerald => 2000
    case Diamond => 2400
    case Master => 2800
    case Grandmaster => 2800
    case Challenger => 2800
  }

  /** Division offset, as the table lists it (a missing entry counts as 0). */
  function RankValue(d: Division): int {
    match d
    case IV => 0
    case III => 100
    case II => 200
    case I => 300
    case Other => 0
  }

  /** The tier table is 400 times the tier's index, clamped to the range IRON..MASTER. */
  lemma TierValueFormula(t: Tier)
    ensures TierValue(t) == 400 * (if TierIndex(t) < 0 then 0 else if TierIndex(t) > 7 then 7 else TierIndex(t))
  {
  }

  /** The division table is 100 per step from IV; an unlisted rank counts 0. */
  lemma RankValueFormula(d: Division)
    ensures RankValue(d) == if d == Other then 0 else 100 * DivisionIndex(d)
  {
  }

  /** The global score of a position. On positions the ladder can produce it is non-negative,
      and it reaches 2800 exactly at the apex tiers. */
  function GlobalLp(p: Position): (g: int)
    ensures WellFormed(p) ==> g >= 0
    ensures WellFormed(p) ==> (IsApex(p.tier) <==> g >= 2800)
  {
    TierValue(p.tier) + RankValue(ParseRank(p.rank)) + p.lp
  }

  /** Signed LP change from `before` to `after`, measured on the global score. Below MASTER it
      is positive exactly for a move up the (tier, division, LP) order and negative exactly for
      a move down. */
  function LpDiff(before: Position, after: Position): (d: int)
    ensures BelowMaster(before) && BelowMaster(after) ==>
              (d > 0 <==> LexLess(before, after)) && (d < 0 <==> LexLess(after, before))
  {
    if BelowMaster(before) && BelowMaster(after) then
      ScoreOrderIsLexicographic(before, after);
      ScoreOrderIsLexicographic(after, before);
      GlobalLp(after) - GlobalLp(before)
    else GlobalLp(after) - GlobalLp(before)
  }

  /** The score is strictly increasing in LP when tier and rank are fixed. */
  lemma GlobalLpStrictInLp(t: Tier, rank: string, lp1: int, lp2: int)
    requires lp1 < lp2
    ensures GlobalLp(Position(t, rank, lp1)) < GlobalLp(Position(t, rank, lp2))
  {
  }

  /** With tier and LP fixed, the score is strictly increasing along IV < III < II < I. */
  lemma GlobalLpStrictInDivision(t: Tier, r1: string, r2: string, lp: int)
    requires ParseRank(r1) != Other && ParseRank(r2) != Other
    requires DivisionIndex(ParseRank(r1)) < DivisionIndex(ParseRank(r2))
    ensures GlobalLp(Position(t, r1, lp)) < GlobalLp(Position(t, r2, lp))
  {
  }

  /** With rank and LP fixed, the score never decreases along the tier order, and strictly
      increases from IRON up to MASTER. */
  lemma GlobalLpMonotoneInTier(t1: Tier, t2: Tier, rank: string, lp: int)
    requires TierIndex(t1) <= TierIndex(t2)
    ensures GlobalLp(Position(t1, rank, lp)) <= GlobalLp(Position(t2, rank, lp))
    ensures 0 <= TierIndex(t1) < TierIndex(t2) <= 7 ==>
              GlobalLp(Position(t1, rank, lp)) < GlobalLp(Position(t2, rank, lp))
  {
  }

  /** The score does not separate UNRANKED from IRON, nor the three apex tiers from each other. */
  lemma ScoreTies(rank: string, lp: int)
    ensures GlobalLp(Position(Unranked, rank, lp)) == GlobalLp(Position(Iron, rank, lp))
    ensures GlobalLp(Position(Master, rank, lp)) == GlobalLp(Position(Grandmaster, rank, lp))
    ensures GlobalLp(Position(Master, rank, lp)) == GlobalLp(Position(Challenger, rank, lp))
  {
  }

  /** Lexicographic order on (tier, division, LP). */
  predicate LexLess(a: Position, b: Position) {
    || TierIndex(a.tier) < TierIndex(b.tier)
    || (a.tier == b.tier && DivisionIndex(ParseRank(a.rank)) < DivisionIndex(ParseRank(b.rank)))
    || (a.tier == b.tier && ParseRank(a.rank) == ParseRank(b.rank) && a.lp < b.lp)
  }

  /** A ranked position strictly below MASTER with a listed division and 0 <= LP < 100. */
  predicate BelowMaster(p: Position) {
    && 0 <= TierIndex(p.tier) < 7
    && ParseRank(p.rank) != Other
    && 0 <= p.lp < 100
  }

  /** Below MASTER, comparing scores is the same as comparing (tier, division, LP)
      lexicographically, in both directions. */
  lemma {:induction false} ScoreOrderIsLexicographic(a: Position, b: Position)
    requires BelowMaster(a) && BelowMaster(b)
    ensures GlobalLp(a) < GlobalLp(b) <==> LexLess(a, b)
  {
    var ta, tb := TierIndex(a.tier), TierIndex(b.tier);
    var da, db := DivisionIndex(ParseRank(a.rank)), DivisionIndex(ParseRank(b.rank));
    assert GlobalLp(a) == 400 * ta + 100 * da + a.lp;
    assert GlobalLp(b) == 400 * tb + 100 * db + b.lp;
    if ta == tb {
      assert a.tier == b.tier;
    }
  }

  /** Swapping before and after negates the delta. */
  lemma LpDiffAntisymmetric(before: Position, after: Position)
    ensures LpDiff(after, before) == -LpDiff(before, after)
  {
  }

  /** A position compared with itself has delta 0. */
  lemma LpDiffZeroForSame(p: Position)
    ensures LpDiff(p, p) == 0
  {
  }

  /** Within one tier and division the delta is plain LP subtraction. */
  lemma LpDiffWithinDivision(before: Position, after: Position)
    requires before.tier == after.tier && ParseRank(before.rank) == ParseRank(after.rank)
    ensures LpDiff(before, after) == after.lp - before.lp
  {
  }
}
