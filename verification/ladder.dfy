/**
 Ladder vocabulary shared by every part of the tracker: tiers, divisions, a ladder position and
 the game summary the classifier produces.

 Tier values are the upper-case strings the ranked API returns ("IRON", ..., "CHALLENGER") plus
 "UNRANKED" for a player without a solo-queue entry. Tier order is the position in the list
 IRON, BRONZE, ..., CHALLENGER; UNRANKED is absent from that list, so its index is -1.
 */
module Ladder {

  datatype Tier =
    | Unranked
    | Iron | Bronze | Silver | Gold | Platinum | Emerald | Diamond
    | Master | Grandmaster | Challenger

  /** The tier's string value. */
  function TierName(t: Tier): string {
    match t
    case Unranked => "UNRANKED"
    case Iron => "IRON"
    case Bronze => "BRONZE"
    case Silver => "SILVER"
    case Gold => "GOLD"
    case Platinum => "PLATINUM"
    case Emerald => "EMERALD"
    case Diamond => "DIAMOND"
    case Master => "MASTER"
    case Grandmaster => "GRANDMASTER"
    case Challenger => "CHALLENGER"
  }

  /** Every tier name has between 4 and 11 characters. */
  lemma TierNameLength(t: Tier)
    ensures 4 <= |TierName(t)| <= 11
  {
  }

  /** Position of the tier's name in the order list IRON..CHALLENGER, or -1 if it is not listed. */
  function TierIndex(t: Tier): (i: int)
    ensures -1 <= i <= 9
    ensures i == -1 <==> t == Unranked
  {
    match t
    case Unranked => -1
    case Iron => 0
    case Bronze => 1
    case Silver => 2
    case Gold => 3
    case Platinum => 4
    case Emerald => 5
    case Diamond => 6
    case Master => 7
    case Grandmaster => 8
    case Challenger => 9
  }

  /** The order list the tier comparisons search: IRON first, CHALLENGER last. */
  const TierOrder: seq<string> :=
    ["IRON", "BRONZE", "SILVER", "GOLD", "PLATINUM", "EMERALD", "DIAMOND",
     "MASTER", "GRANDMASTER", "CHALLENGER"]

  /** The order list the division comparisons search: IV first, I last. */
  const DivisionOrder: seq<string> := ["IV", "III", "II", "I"]

  /** The position of the first occurrence of `x` in `xs`, or -1 when it does not occur. */
  function IndexOf(xs: seq<string>, x: string): (i: int)
    ensures -1 <= i < |xs|
    ensures i == -1 <==> x !in xs
    ensures i >= 0 ==> xs[i] == x && forall j :: 0 <= j < i ==> xs[j] != x
  {
    if xs == [] then -1
    else if xs[0] == x then 0
    else
      var j := IndexOf(xs[1..], x);
      if j == -1 then -1 else j + 1
  }

  /** The tier index is the tier name's position in the order list, GRANDMASTER before
      CHALLENGER included; UNRANKED is not listed. */
  lemma TierIndexIsOrderPosition(t: Tier)
    ensures TierIndex(t) == IndexOf(TierOrder, TierName(t))
  {
    var x := TierName(t);
    if t == Unranked {
      assert forall k :: 0 <= k < |TierOrder| ==> TierOrder[k] != x;
    } else {
      var k := TierIndex(t);
      assert TierOrder[k] == x;
      assert forall j :: 0 <= j < k ==> TierOrder[j] != x;
      IndexOfFirst(TierOrder, x, k);
    }
  }

  /** An element at position k that does not occur before k is found at k. */
  lemma IndexOfFirst(xs: seq<string>, x: string, k: int)
    requires 0 <= k < |xs| && xs[k] == x
    requires forall j :: 0 <= j < k ==> xs[j] != x
    ensures IndexOf(xs, x) == k
  {
  }

  /** MASTER, GRANDMASTER and CHALLENGER: the tiers without divisions. */
  predicate IsApex(t: Tier) {
    TierIndex(t) >= 7
  }

  /** A division as the rank string denotes it; `Other` stands for every unlisted string,
      the empty string of an unranked player included. */
  datatype Division = IV | III | II | I | Other

  function DivisionName(d: Division): string
    requires d != Other
  {
    match d
    case IV => "IV"
    case III => "III"
    case II => "II"
    case I => "I"
  }

  /** Position of the division in the list IV, III, II, I, or -1 for `Other`. */
  function DivisionIndex(d: Division): (i: int)
    ensures -1 <= i <= 3
    ensures i == -1 <==> d == Other
  {
    match d
    case IV => 0
    case III => 1
    case II => 2
    case I => 3
    case Other => -1
  }

  /** Reads a rank string; the lookup is exact (case-sensitive). */
  function ParseRank(s: string): (d: Division)
    ensures d != Other ==> s == DivisionName(d)
    ensures d == Other ==> forall e :: e != Other ==> s != DivisionName(e)
  {
    if s == "IV" then IV
    else if s == "III" then III
    else if s == "II" then II
    else if s == "I" then I
    else Other
  }

  /** A ladder position as the tracker stores it: the rank is the string the API returned. */
  datatype Position = Position(tier: Tier, rank: string, lp: int)

  /** What the ladder itself guarantees about a solo-queue entry: a real tier, a listed division,
      non-negative LP, and below MASTER fewer than 100 LP. */
  predicate WellFormed(p: Position) {
    && p.tier != Unranked
    && ParseRank(p.rank) != Other
    && p.lp >= 0
    && (!IsApex(p.tier) ==> p.lp < 100)
  }

  datatype GameResult = Victory | Defeat | Remake

  datatype RankChangeType = LP | RANK | TIER | NOTHING

  datatype GameSummary = GameSummary(result: GameResult, changeType: RankChangeType, lpDiff: int)

  /** Reading a rank string and taking its division index is searching the division order
      list, for every string: an unlisted one gets -1. */
  lemma DivisionIndexIsOrderPosition(s: string)
    ensures DivisionIndex(ParseRank(s)) == IndexOf(DivisionOrder, s)
  {
  }

  lemma ParseRankOfName(d: Division)
    requires d != Other
    ensures ParseRank(DivisionName(d)) == d
  {
  }
}
