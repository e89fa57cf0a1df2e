/**
 The first version of the tracked player, which still ships next to the current one. It keeps
 an account id, a puuid and a ladder position, reloads them from the first league entry the API
 lists (of any queue), and announces a change as a French sentence followed by the new position.

 The LP branch of its classifier labels a rise in LP as a loss and a fall as a gain, with the
 amount's sign inverted. `LegacyClassify` keeps that branch as written; `Classify` is the
 intended one, and it is the one `Check` and the agreement with the current classifier use.
 */
module LegacySummoner {
  import opened Options
  import opened Text
  import opened Ladder
  import Summoner
  import RankCalculator

  /** The legacy player: account id, puuid, name and ladder position. */
  datatype LegacyState = LegacyState(id: string, puuid: string, name: string, tier: Tier, rank: string, lp: int)

  /** A freshly tracked player: no ids, the unranked tier, an empty rank and 0 LP. */
  function NewLegacy(name: string): (s: LegacyState)
    ensures s.name == name && s.id == "" && s.puuid == ""
    ensures Position(s.tier, s.rank, s.lp) == Position(Unranked, "", 0)
  {
    LegacyState("", "", name, Unranked, "", 0)
  }

  function PositionOf(s: LegacyState): Position {
    Position(s.tier, s.rank, s.lp)
  }

  /** The tier as the legacy sentence prints it; the unranked value prints as "UNRANK". */
  function LegacyTierName(t: Tier): (n: string)
    ensures t != Unranked ==> n == TierName(t)
    ensures n != "" && n != TierName(Unranked)
  {
    if t == Unranked then "UNRANK" else TierName(t)
  }

  /** The legacy comparison searches the same order list with the legacy names: the unranked
      value is not listed, every other tier sits at its index. */
  lemma LegacyTierIndexIsOrderPosition(t: Tier)
    ensures TierIndex(t) == IndexOf(TierOrder, LegacyTierName(t))
  {
    if t == Unranked {
      assert forall k :: 0 <= k < |TierOrder| ==> TierOrder[k] != "UNRANK";
    } else {
      TierIndexIsOrderPosition(t);
    }
  }

  /** The account lookup's answer: account id and puuid. */
  datatype Profile = Profile(id: string, puuid: string)

  /** Reloads the player: a missing account leaves everything as it was; otherwise the ids are
      stored, and the position is read from the first league entry, whatever its queue, if
      there is one. */
  function LoadData(s: LegacyState, profile: Option<Profile>, entries: seq<Summoner.LeagueEntry>): (r: LegacyState)
    ensures r.name == s.name
    ensures profile.None? ==> r == s
    ensures profile.Some? ==> r.id == profile.value.id && r.puuid == profile.value.puuid
    ensures profile.None? || entries == [] ==> PositionOf(r) == PositionOf(s)
    ensures profile.Some? && entries != [] ==>
              PositionOf(r) == Position(Summoner.StrToTier(entries[0].tier), entries[0].rank, entries[0].leaguePoints)
  {
    match profile
    case None => s
    case Some(p) =>
      var withIds := s.(id := p.id, puuid := p.puuid);
      if entries == [] then withIds
      else
        var e := entries[0];
        withIds.(tier := Summoner.StrToTier(e.tier), rank := e.rank, lp := e.leaguePoints)
  }

  /** The legacy loader reads whichever entry comes first, so a flexible-queue entry listed
      before the solo one is taken as the player's rank, where the current loader skips it. */
  lemma LegacyReadsAnyQueue(s: LegacyState, p: Profile, flex: Summoner.LeagueEntry, solo: Summoner.LeagueEntry)
    requires flex.queueType != Summoner.SoloQueue && solo.queueType == Summoner.SoloQueue
    ensures PositionOf(LoadData(s, Some(p), [flex, solo])).rank == flex.rank
    ensures Summoner.FirstSoloEntry([flex, solo]) == Some(solo)
  {
    assert [flex, solo][1..] == [solo];
  }

  /** What the legacy classifier reports. */
  datatype Verdict =
    | NoChange
    | LpLoss(amount: int)
    | LpGain(amount: int)
    | DivisionDown
    | DivisionUp
    | TierDown
    | TierUp

  /** The part shared by both LP branches: a tier move, a division move, or the same place. */
  function PlaceMove(before: Position, after: Position): (v: Verdict)
    ensures v.TierUp? <==> TierIndex(before.tier) < TierIndex(after.tier)
    ensures v.TierDown? <==> TierIndex(before.tier) > TierIndex(after.tier)
    ensures v.DivisionUp? <==>
              before.tier == after.tier && DivisionIndex(ParseRank(before.rank)) < DivisionIndex(ParseRank(after.rank))
    ensures v.DivisionDown? <==>
              before.tier == after.tier && DivisionIndex(ParseRank(before.rank)) > DivisionIndex(ParseRank(after.rank))
    ensures v.NoChange? <==> Summoner.SamePlace(before, after)
    ensures !v.LpLoss? && !v.LpGain?
  {
    var tier := Summoner.CompareTier(before.tier, after.tier);
    if tier == Summoner.Same then
      var rank := Summoner.CompareRank(before.rank, after.rank);
      if rank == Summoner.Same then NoChange
      else if rank == Summoner.Downgrade then DivisionDown
      else DivisionUp
    else if tier == Summoner.Downgrade then TierDown
    else TierUp
  }

  /** The classifier as written: in the same place, more LP than before is reported as a loss of
      `before.lp - after.lp` (a negative amount), and fewer LP as a gain of the same
      expression (a positive amount). */
  function LegacyClassify(before: Position, after: Position): (v: Verdict)
    ensures v.LpLoss? <==> Summoner.SamePlace(before, after) && after.lp > before.lp
    ensures v.LpGain? <==> Summoner.SamePlace(before, after) && after.lp < before.lp
    ensures v.LpLoss? ==> v.amount < 0 && after.lp - before.lp == -v.amount
    ensures v.LpGain? ==> v.amount > 0 && before.lp - after.lp == v.amount
  {
    var place := PlaceMove(before, after);
    if !place.NoChange? then place
    else if after.lp > before.lp then LpLoss(before.lp - after.lp)
    else if after.lp < before.lp then LpGain(before.lp - after.lp)
    else NoChange
  }

  /** The classifier as intended: in the same place, a rise in LP is a gain of the rise and a
      fall a loss of the fall, both amounts positive. */
  function Classify(before: Position, after: Position): (v: Verdict)
    ensures v.LpGain? ==> v.amount > 0 && after.lp - before.lp == v.amount
    ensures v.LpLoss? ==> v.amount > 0 && before.lp - after.lp == v.amount
    ensures v.NoChange? <==> Summoner.SamePlace(before, after) && after.lp == before.lp
  {
    var place := PlaceMove(before, after);
    if !place.NoChange? then place
    else if after.lp > before.lp then LpGain(after.lp - before.lp)
    else if after.lp < before.lp then LpLoss(before.lp - after.lp)
    else NoChange
  }

  /** The two classifiers differ exactly in the LP branch, where the labels are swapped and the
      amounts negated. */
  lemma {:induction false} LegacyLabelsSwapped(before: Position, after: Position)
    ensures LegacyClassify(before, after).LpLoss? <==> Classify(before, after).LpGain?
    ensures LegacyClassify(before, after).LpGain? <==> Classify(before, after).LpLoss?
    ensures LegacyClassify(before, after).LpLoss? ==>
              LegacyClassify(before, after).amount == -Classify(before, after).amount
    ensures LegacyClassify(before, after).LpGain? ==>
              LegacyClassify(before, after).amount == Classify(before, after).amount
    ensures !LegacyClassify(before, after).LpLoss? && !LegacyClassify(before, after).LpGain? ==>
              LegacyClassify(before, after) == Classify(before, after)
  {
    var place := PlaceMove(before, after);
    if place.NoChange? {
      assert before.tier == after.tier;
    }
  }

  /** The intended classifier agrees with the current one on every pair of positions, except
      that the current one also reports a 0-LP defeat where the legacy one sees no change. */
  lemma {:induction false} ClassifyAgreesWithCurrent(before: Position, after: Position)
    ensures var v, s := Classify(before, after), Summoner.CompareTotalRank(before, after);
      && (v.TierUp? <==> s.changeType == TIER && s.result == Victory)
      && (v.TierDown? <==> s.changeType == TIER && s.result == Defeat)
      && (v.DivisionUp? <==> s.changeType == RANK && s.result == Victory)
      && (v.DivisionDown? <==> s.changeType == RANK && s.result == Defeat)
      && (v.LpGain? <==> s.changeType == LP && s.result == Victory)
      && (v.LpLoss? <==> s.changeType == LP && s.result == Defeat && s.lpDiff != 0)
      && (v.NoChange? <==> s.result == Remake || s == GameSummary(Defeat, LP, 0))
      && (v.LpGain? ==> v.amount == s.lpDiff)
      && (v.LpLoss? ==> v.amount == -s.lpDiff)
  {
    var v, s := Classify(before, after), Summoner.CompareTotalRank(before, after);
    if Summoner.SamePlace(before, after) {
      RankCalculator.LpDiffWithinDivision(before, after);
    } else {
      assert v == PlaceMove(before, after);
    }
  }

  /** The line that ends every legacy message: the new tier, rank and LP. */
  function Suffix(after: Position): string {
    "\n" + LegacyTierName(after.tier) + " " + after.rank + " " + IntToString(after.lp) + " LP"
  }

  const Lost: string := " vient de perdre -"
  const Gained: string := " vient de gagner +"
  const WentDown: string := " vient de descendre "
  const WentUp: string := " vient de monter "

  /** What the sentence says between the player's name and the new position. */
  function Sentence(after: Position, v: Verdict): string {
    var tier := LegacyTierName(after.tier);
    match v
    case NoChange => ""
    case LpLoss(a) => Lost + IntToString(a) + " LP"
    case LpGain(a) => Gained + IntToString(a) + " LP"
    case DivisionDown => WentDown + tier + " " + after.rank
    case DivisionUp => WentUp + tier + " " + after.rank
    case TierDown => WentDown + tier
    case TierUp => WentUp + tier
  }

  /** Reads an LP sentence back: the verb's opening, a number, " LP". */
  function ReadAmount(opening: string, m: string): Option<int> {
    if |m| >= |opening| + 3 && m[..|opening|] == opening && m[|m| - 3..] == " LP" then
      ParseInt(m[|opening|..|m| - 3])
    else None
  }

  /** Reads a sentence back into its verdict, given the new position the message ends with. The
      eleventh character tells the verbs apart: 'p'erdre, 'g'agner, 'd'escendre, 'm'onter. */
  function ReadSentence(after: Position, m: string): Option<Verdict> {
    var tier := LegacyTierName(after.tier);
    if |m| < 11 then None
    else if m[10] == 'p' then
      match ReadAmount(Lost, m)
      case Some(a) => Some(LpLoss(a))
      case None => None
    else if m[10] == 'g' then
      match ReadAmount(Gained, m)
      case Some(a) => Some(LpGain(a))
      case None => None
    else if m[10] == 'd' then
      if m == WentDown + tier + " " + after.rank then Some(DivisionDown)
      else if m == WentDown + tier then Some(TierDown)
      else None
    else if m[10] == 'm' then
      if m == WentUp + tier + " " + after.rank then Some(DivisionUp)
      else if m == WentUp + tier then Some(TierUp)
      else None
    else None
  }

  /** An LP sentence reads back as its amount. */
  lemma ReadAmountOf(opening: string, a: int)
    ensures ReadAmount(opening, opening + IntToString(a) + " LP") == Some(a)
  {
    SlicesOfConcat(opening, IntToString(a), " LP");
    ParseIntOfIntToString(a);
  }

  /** A loss sentence reads back as a loss of its amount. */
  lemma LossSentenceRoundTrip(after: Position, a: int)
    ensures ReadSentence(after, Lost + IntToString(a) + " LP") == Some(LpLoss(a))
  {
    var m := Lost + IntToString(a) + " LP";
    assert m[10] == 'p';
    ReadAmountOf(Lost, a);
  }

  /** A gain sentence reads back as a gain of its amount. */
  lemma GainSentenceRoundTrip(after: Position, a: int)
    ensures ReadSentence(after, Gained + IntToString(a) + " LP") == Some(LpGain(a))
  {
    var m := Gained + IntToString(a) + " LP";
    assert m[10] == 'g';
    ReadAmountOf(Gained, a);
  }

  /** The two "descendre" sentences read back as the move they announce. */
  lemma DownSentenceRoundTrip(after: Position)
    ensures var tier := LegacyTierName(after.tier);
      && ReadSentence(after, WentDown + tier + " " + after.rank) == Some(DivisionDown)
      && ReadSentence(after, WentDown + tier) == Some(TierDown)
  {
    var tier := LegacyTierName(after.tier);
    var long, short := WentDown + tier + " " + after.rank, WentDown + tier;
    assert long[10] == 'd' && short[10] == 'd';
    assert |short| < |long|;
  }

  /** The two "monter" sentences read back as the move they announce. */
  lemma UpSentenceRoundTrip(after: Position)
    ensures var tier := LegacyTierName(after.tier);
      && ReadSentence(after, WentUp + tier + " " + after.rank) == Some(DivisionUp)
      && ReadSentence(after, WentUp + tier) == Some(TierUp)
  {
    var tier := LegacyTierName(after.tier);
    var long, short := WentUp + tier + " " + after.rank, WentUp + tier;
    assert long[10] == 'm' && short[10] == 'm';
    assert |short| < |long|;
  }

  /** Every sentence of a change reads back as the verdict it was written for. */
  lemma SentenceRoundTrip(after: Position, v: Verdict)
    requires v != NoChange
    ensures ReadSentence(after, Sentence(after, v)) == Some(v)
  {
    match v
    case LpLoss(a) => LossSentenceRoundTrip(after, a);
    case LpGain(a) => GainSentenceRoundTrip(after, a);
    case DivisionDown => DownSentenceRoundTrip(after);
    case TierDown => DownSentenceRoundTrip(after);
    case DivisionUp => UpSentenceRoundTrip(after);
    case TierUp => UpSentenceRoundTrip(after);
  }

  /** Reads a whole message back: the player's name, a sentence, the new position's line. */
  function ReadVerdict(name: string, after: Position, text: string): Option<Verdict> {
    var suffix := Suffix(after);
    if |text| >= |name| + |suffix| && text[..|name|] == name && text[|text| - |suffix|..] == suffix then
      ReadSentence(after, text[|name|..|text| - |suffix|])
    else None
  }

  /** The sentence for a verdict (`None` where JavaScript returns `false`), naming the player,
      ending with the new position, and reading back as the verdict. */
  function Message(name: string, after: Position, v: Verdict): (r: Option<string>)
    ensures r.None? <==> v.NoChange?
    ensures r.Some? ==> |r.value| >= |name| + |Suffix(after)|
    ensures r.Some? ==> r.value[..|name|] == name
    ensures r.Some? ==> r.value[|r.value| - |Suffix(after)|..] == Suffix(after)
    ensures r.Some? ==> ReadVerdict(name, after, r.value) == Some(v)
  {
    if v.NoChange? then None
    else
      var sentence, suffix := Sentence(after, v), Suffix(after);
      SlicesOfConcat(name, sentence, suffix);
      SentenceRoundTrip(after, v);
      Some(name + sentence + suffix)
  }

  /** The message as the legacy code writes it: it reads back as the as-written verdict. */
  function LegacyCompareTotalRank(name: string, before: Position, after: Position): (r: Option<string>)
    ensures r.None? <==> Summoner.SamePlace(before, after) && after.lp == before.lp
    ensures r.Some? ==> ReadVerdict(name, after, r.value) == Some(LegacyClassify(before, after))
  {
    LegacyLabelsSwapped(before, after);
    Message(name, after, LegacyClassify(before, after))
  }

  /** The message as intended: it reads back as the intended verdict. */
  function CompareTotalRank(name: string, before: Position, after: Position): (r: Option<string>)
    ensures r.None? <==> Summoner.SamePlace(before, after) && after.lp == before.lp
    ensures r.Some? ==> ReadVerdict(name, after, r.value) == Some(Classify(before, after))
  {
    Message(name, after, Classify(before, after))
  }

  /** Winning 20 LP in GOLD IV is announced as a loss of "-20" LP by the code as written. */
  lemma LegacyGainReadsAsLoss()
    ensures LegacyCompareTotalRank("X", Position(Gold, "IV", 30), Position(Gold, "IV", 50))
              == Some("X" + " vient de perdre --20 LP" + "\nGOLD IV 50 LP")
  {
    var before, after := Position(Gold, "IV", 30), Position(Gold, "IV", 50);
    var sentence, suffix := " vient de perdre --20 LP", "\nGOLD IV 50 LP";
    assert Suffix(after) == suffix by {
      assert NatToString(50) == "50";
    }
    assert Sentence(after, LpLoss(-20)) == sentence by {
      assert NatToString(20) == "20";
    }
    assert LegacyClassify(before, after) == LpLoss(-20);
  }

  /** The intended classifier announces the same game as a gain of 20 LP. */
  lemma GainReadsAsGain()
    ensures CompareTotalRank("X", Position(Gold, "IV", 30), Position(Gold, "IV", 50))
              == Some("X" + " vient de gagner +20 LP" + "\nGOLD IV 50 LP")
  {
    var before, after := Position(Gold, "IV", 30), Position(Gold, "IV", 50);
    var sentence, suffix := " vient de gagner +20 LP", "\nGOLD IV 50 LP";
    assert Suffix(after) == suffix by {
      assert NatToString(50) == "50";
    }
    assert Sentence(after, LpGain(20)) == sentence by {
      assert NatToString(20) == "20";
    }
    assert Classify(before, after) == LpGain(20);
  }

  /** One refresh: snapshot the old position, reload, and describe the move. */
  function Check(s: LegacyState, profile: Option<Profile>, entries: seq<Summoner.LeagueEntry>)
    : (r: (LegacyState, Option<string>))
    ensures r.0 == LoadData(s, profile, entries)
    ensures profile.None? || entries == [] ==> r.1.None?
    ensures r.1.Some? ==> |r.1.value| >= |s.name| && r.1.value[..|s.name|] == s.name
    ensures r.1.Some? <==> Classify(PositionOf(s), PositionOf(r.0)) != NoChange
    ensures r.1.Some? ==> ReadVerdict(s.name, PositionOf(r.0), r.1.value) == Some(Classify(PositionOf(s), PositionOf(r.0)))
  {
    var next := LoadData(s, profile, entries);
    (next, Message(next.name, PositionOf(next), Classify(PositionOf(s), PositionOf(next))))
  }
}
