/**
 A tracked player and the rank-change classifier.

 `CompareTotalRank(before, after)` receives the position from before the refresh and the
 position after it (the caller snapshots the old tier, rank and LP and passes them in; the
 player's own fields then hold the new ones), and classifies the change as an LP, division or
 tier move with a result and a signed LP delta. `Check` is one refresh cycle: the remote
 fetches are given as a `Fetched` record, and every field a fetch writes before a later step
 fails stays written.
 */
module Summoner {
  import opened Options
  import opened Text
  import opened Ladder
  import RankCalculator
  import MessageBuilder

  /** Outcome of a three-way index comparison. `Undetermined` stands for falling off the end of
      the comparison without returning (the JavaScript function's implicit `undefined`). */
  datatype Comparison = Upgrade | Downgrade | Same | Undetermined

  function CompareIndices(current: int, next: int): Comparison {
    if current < next then Upgrade
    else if current > next then Downgrade
    else if current == next then Same
    else Undetermined
  }

  function Flip(c: Comparison): Comparison {
    match c
    case Upgrade => Downgrade
    case Downgrade => Upgrade
    case Same => Same
    case Undetermined => Undetermined
  }

  /** Compares two tiers by their position in the order list; UNRANKED (index -1) sits below
      IRON. Always one of the three answers, and `Same` only for the same tier. */
  function CompareTier(current: Tier, next: Tier): (c: Comparison)
    ensures c != Undetermined
    ensures c == Same <==> current == next
    ensures c == Upgrade <==> TierIndex(current) < TierIndex(next)
  {
    CompareIndices(TierIndex(current), TierIndex(next))
  }

  /** Compares two rank strings by their position in IV, III, II, I; every unlisted string
      (index -1) sits below IV, and two unlisted strings compare `Same`. */
  function CompareRank(current: string, next: string): (c: Comparison)
    ensures c != Undetermined
    ensures c == Same <==> ParseRank(current) == ParseRank(next)
    ensures c == Upgrade <==> DivisionIndex(ParseRank(current)) < DivisionIndex(ParseRank(next))
  {
    CompareIndices(DivisionIndex(ParseRank(current)), DivisionIndex(ParseRank(next)))
  }

  /** Both comparisons are antisymmetric: swapping the arguments flips the answer. */
  lemma ComparisonsAntisymmetric(t1: Tier, t2: Tier, r1: string, r2: string)
    ensures CompareTier(t2, t1) == Flip(CompareTier(t1, t2))
    ensures CompareRank(r2, r1) == Flip(CompareRank(r1, r2))
  {
  }

  /** Reads a tier name, ignoring ASCII case; any unknown string becomes UNRANKED. */
  function StrToTier(s: string): (t: Tier)
    ensures t != Unranked ==> ToUpper(s) == TierName(t)
    ensures t == Unranked ==> forall u :: u != Unranked ==> ToUpper(s) != TierName(u)
  {
    var u := ToUpper(s);
    if u == "IRON" then Iron
    else if u == "BRONZE" then Bronze
    else if u == "SILVER" then Silver
    else if u == "GOLD" then Gold
    else if u == "PLATINUM" then Platinum
    else if u == "EMERALD" then Emerald
    else if u == "DIAMOND" then Diamond
    else if u == "MASTER" then Master
    else if u == "GRANDMASTER" then Grandmaster
    else if u == "CHALLENGER" then Challenger
    else Unranked
  }

  lemma TierNameIsUpper(t: Tier)
    ensures ToUpper(TierName(t)) == TierName(t)
  {
    var n := TierName(t);
    forall i | 0 <= i < |n|
      ensures ToUpper(n)[i] == n[i]
    {
    }
  }

  /** Every tier name reads back as its tier, in upper or lower case. */
  lemma StrToTierRoundTrip(t: Tier)
    ensures StrToTier(TierName(t)) == t
    ensures StrToTier(ToLower(TierName(t))) == t
  {
    TierNameIsUpper(t);
    UpperOfLower(TierName(t));
  }

  /** Same tier and same division (as the division comparison sees it). */
  predicate SamePlace(before: Position, after: Position) {
    before.tier == after.tier && ParseRank(before.rank) == ParseRank(after.rank)
  }

  /** Classifies the move from `before` to `after`. */
  function CompareTotalRank(before: Position, after: Position): (r: GameSummary)
    // the delta is always the score difference, including the floor-loss and remake cases
    ensures r.lpDiff == RankCalculator.LpDiff(before, after)
    ensures r.changeType == TIER <==> before.tier != after.tier
    ensures r.changeType == RANK <==> before.tier == after.tier && !SamePlace(before, after)
    ensures r.changeType == LP <==> SamePlace(before, after) && (after.lp != before.lp || after.lp == 0)
    // a remake is the only outcome without a change type, and the fallback branch is never taken
    ensures r.changeType == NOTHING <==> r.result == Remake
    ensures r.result == Remake <==> SamePlace(before, after) && after.lp == before.lp && after.lp != 0
    ensures r.result == Victory <==>
              || TierIndex(before.tier) < TierIndex(after.tier)
              || (before.tier == after.tier
                  && DivisionIndex(ParseRank(before.rank)) < DivisionIndex(ParseRank(after.rank)))
              || (SamePlace(before, after) && after.lp > before.lp)
  {
    var lpDiff := RankCalculator.LpDiff(before, after);
    if CompareTier(before.tier, after.tier) == Same then
      if CompareRank(before.rank, after.rank) == Same then
        if after.lp > before.lp then GameSummary(Victory, LP, lpDiff)
        else if after.lp < before.lp then GameSummary(Defeat, LP, lpDiff)
        else if after.lp == 0 && before.lp == 0 then GameSummary(Defeat, LP, 0)
        else GameSummary(Remake, NOTHING, 0)
      else if CompareRank(before.rank, after.rank) == Downgrade then GameSummary(Defeat, RANK, lpDiff)
      else GameSummary(Victory, RANK, lpDiff)
    else if CompareTier(before.tier, after.tier) == Downgrade then GameSummary(Defeat, TIER, lpDiff)
    else if CompareTier(before.tier, after.tier) == Upgrade then GameSummary(Victory, TIER, lpDiff)
    else GameSummary(Remake, NOTHING, 0)
  }

  /** A loss at 0 LP within one division is a defeat with delta 0, not a remake. */
  lemma FloorLossIsDefeat(before: Position, after: Position)
    requires SamePlace(before, after) && before.lp == 0 && after.lp == 0
    ensures CompareTotalRank(before, after) == GameSummary(Defeat, LP, 0)
  {
  }

  /** For positions the ladder can produce, the result's sign agrees with the delta: a victory
      gains points and a defeat loses them, except the 0-LP floor loss. The apex tiers share
      one base score, so moves among them are excluded. */
  lemma SignAgreesWithResult(before: Position, after: Position)
    requires WellFormed(before) && WellFormed(after)
    requires !(IsApex(before.tier) && IsApex(after.tier))
    ensures var r := CompareTotalRank(before, after);
      && (r.result == Victory ==> r.lpDiff > 0)
      && (r.result == Defeat ==> r.lpDiff < 0 || (r.changeType == LP && before.lp == 0 && after.lp == 0))
  {
  }

  /** Outside well-formed positions the sign can disagree: UNRANKED at 0 LP to IRON IV at 0 LP
      is a tier victory worth 0 points, since UNRANKED and IRON share one base score. */
  lemma UnrankedToIronGainsNothing(before: Position, after: Position)
    requires before.tier == Unranked && ParseRank(before.rank) == Other && before.lp == 0
    requires after.tier == Iron && ParseRank(after.rank) == IV && after.lp == 0
    ensures CompareTotalRank(before, after) == GameSummary(Victory, TIER, 0)
  {
  }

  /** Between apex tiers the sign can disagree too, on well-formed positions: MASTER I 300 to
      GRANDMASTER I 250 is a tier victory that loses 50 points, since the apex tiers share one
      base score. */
  lemma ApexPromotionCanLosePoints(before: Position, after: Position)
    requires before.tier == Master && ParseRank(before.rank) == I && before.lp == 300
    requires after.tier == Grandmaster && ParseRank(after.rank) == I && after.lp == 250
    ensures WellFormed(before) && WellFormed(after)
    ensures CompareTotalRank(before, after) == GameSummary(Victory, TIER, -50)
  {
  }

  /** The classifier examples of the repository's tests (with the delta's real sign). */
  lemma ClassifierExamples()
    ensures CompareTotalRank(Position(Gold, "IV", 30), Position(Gold, "IV", 50)) == GameSummary(Victory, LP, 20)
    ensures CompareTotalRank(Position(Gold, "IV", 70), Position(Gold, "IV", 50)) == GameSummary(Defeat, LP, -20)
    ensures CompareTotalRank(Position(Gold, "IV", 90), Position(Gold, "III", 50)) == GameSummary(Victory, RANK, 60)
    ensures CompareTotalRank(Position(Gold, "III", 0), Position(Gold, "IV", 50)) == GameSummary(Defeat, RANK, -50)
    ensures CompareTotalRank(Position(Silver, "I", 90), Position(Gold, "IV", 1)) == GameSummary(Victory, TIER, 11)
  {
  }

  /** A tracked player: identity, last committed ladder position and last seen game id. */
  datatype SummonerState = SummonerState(
    puuid: string, name: string, discordId: string,
    tier: Tier, rank: string, lp: int, lastGameId: string)

  /** A freshly tracked player: UNRANKED, empty rank, 0 LP, no game seen. */
  function NewSummoner(name: string, puuid: string, discordId: string): (s: SummonerState)
    ensures s.name == name && s.puuid == puuid && s.discordId == discordId
    ensures PositionOf(s) == Position(Unranked, "", 0) && s.lastGameId == ""
    ensures GlobalScore(s) == 0
  {
    SummonerState(puuid, name, discordId, Unranked, "", 0, "")
  }

  function PositionOf(s: SummonerState): Position {
    Position(s.tier, s.rank, s.lp)
  }

  function GlobalScore(s: SummonerState): int {
    RankCalculator.GlobalLp(PositionOf(s))
  }

  function DiscordAt(s: SummonerState): string {
    "<@" + s.discordId + ">"
  }

  /** Characters matched by JavaScript's whitespace class `\s`. */
  predicate IsJsSpace(c: char) {
    || c == '\t' || c == '\n' || c == '\U{000B}' || c == '\U{000C}' || c == '\r' || c == ' '
    || c == '\U{00A0}' || c == '\U{1680}' || ('\U{2000}' <= c <= '\U{200A}')
    || c == '\U{2028}' || c == '\U{2029}' || c == '\U{202F}' || c == '\U{205F}' || c == '\U{3000}'
    || c == '\U{FEFF}'
  }

  function CountSpaces(s: string): nat {
    if s == [] then 0 else (if IsJsSpace(s[0]) then 1 else 0) + CountSpaces(s[1..])
  }

  /** Replaces every whitespace character by "%20". */
  function EncodeSpaces(s: string): (r: string)
    ensures forall i :: 0 <= i < |r| ==> !IsJsSpace(r[i])
    ensures |r| == |s| + 2 * CountSpaces(s)
    ensures CountSpaces(s) == 0 ==> r == s
  {
    if s == [] then []
    else (if IsJsSpace(s[0]) then "%20" else [s[0]]) + EncodeSpaces(s[1..])
  }

  /** The name with every whitespace character replaced by a plain space. */
  function Blank(s: string): (r: string)
    ensures |r| == |s|
    ensures forall i :: 0 <= i < |s| ==> r[i] == if IsJsSpace(s[i]) then ' ' else s[i]
  {
    seq(|s|, i requires 0 <= i < |s| => if IsJsSpace(s[i]) then ' ' else s[i])
  }

  /** Reads an encoded name back: every "%20" becomes a space, every other character stays. */
  function DecodeSpaces(s: string): string {
    if s == [] then []
    else if |s| >= 3 && s[..3] == "%20" then " " + DecodeSpaces(s[3..])
    else [s[0]] + DecodeSpaces(s[1..])
  }

  /** For a name without '%', decoding the encoded name gives the name back with each whitespace
      character as a space: each whitespace character became "%20" and every other character
      kept its place. */
  lemma {:induction false} EncodeSpacesRoundTrip(s: string)
    requires forall i :: 0 <= i < |s| ==> s[i] != '%'
    ensures DecodeSpaces(EncodeSpaces(s)) == Blank(s)
  {
    if s != [] {
      var rest := EncodeSpaces(s[1..]);
      EncodeSpacesRoundTrip(s[1..]);
      if IsJsSpace(s[0]) {
        assert ("%20" + rest)[..3] == "%20";
        assert ("%20" + rest)[3..] == rest;
      } else {
        assert ([s[0]] + rest)[1..] == rest;
      }
      assert Blank(s) == [Blank(s)[0]] + Blank(s[1..]);
    }
  }

  /** A name whose only whitespace is plain spaces, and that has no '%', is recovered exactly. */
  lemma EncodeSpacesRecoversName(s: string)
    requires forall i :: 0 <= i < |s| ==> s[i] != '%' && (IsJsSpace(s[i]) ==> s[i] == ' ')
    ensures DecodeSpaces(EncodeSpaces(s)) == s
  {
    EncodeSpacesRoundTrip(s);
    assert Blank(s) == s;
  }

  const OpggBase: string := "https://www.op.gg/summoners/euw/"

  /** The player's op.gg page: the game name with its whitespace encoded, a dash, the tag. */
  function GetOpggLink(playerName: string, playerTag: string): (r: string)
    ensures |r| == |OpggBase| + |playerName| + 2 * CountSpaces(playerName) + 1 + |playerTag|
    ensures r[..|OpggBase|] == OpggBase
    ensures r[|r| - |playerTag| - 1..] == "-" + playerTag
    ensures forall i :: |OpggBase| <= i < |r| - |playerTag| - 1 ==> !IsJsSpace(r[i])
    ensures r[|OpggBase|..|r| - |playerTag| - 1] == EncodeSpaces(playerName)
  {
    var encoded := EncodeSpaces(playerName);
    assert OpggBase + encoded + ("-" + playerTag) == OpggBase + encoded + "-" + playerTag;
    SlicesOfConcat(OpggBase, encoded, "-" + playerTag);
    OpggBase + encoded + "-" + playerTag
  }

  /** One ranked-league entry as the API lists it. */
  datatype LeagueEntry = LeagueEntry(queueType: string, tier: string, rank: string, leaguePoints: int)

  const SoloQueue: string := "RANKED_SOLO_5x5"

  /** The first solo-queue entry, if any. */
  function FirstSoloEntry(entries: seq<LeagueEntry>): (r: Option<LeagueEntry>)
    ensures r.None? <==> forall i :: 0 <= i < |entries| ==> entries[i].queueType != SoloQueue
    ensures r.Some? ==> r.value.queueType == SoloQueue
    ensures r.Some? ==> exists i :: 0 <= i < |entries| && entries[i] == r.value
                          && forall j :: 0 <= j < i ==> entries[j].queueType != SoloQueue
  {
    if entries == [] then None
    else if entries[0].queueType == SoloQueue then Some(entries[0])
    else
      var r := FirstSoloEntry(entries[1..]);
      assert r.Some? ==> exists i :: 0 <= i < |entries| && entries[i] == r.value
                          && forall j :: 0 <= j < i ==> entries[j].queueType != SoloQueue by {
        if r.Some? {
          var k :| 0 <= k < |entries[1..]| && entries[1..][k] == r.value
                   && forall j :: 0 <= j < k ==> entries[1..][j].queueType != SoloQueue;
          assert entries[k + 1] == r.value;
          assert forall j :: 0 <= j < k + 1 ==> entries[j].queueType != SoloQueue by {
            forall j | 0 <= j < k + 1
              ensures entries[j].queueType != SoloQueue
            {
              if j > 0 {
                assert entries[j] == entries[1..][j - 1];
              }
            }
          }
        }
      }
      r
  }

  /** What one refresh cycle gets back from the remote service: the account's puuid (`None`
      when the lookup fails), the recent match ids, the league entries (`None` when the rank
      request throws or its data is not a list), and the player's champion ("" when the match
      details could not be read) and the game duration in seconds. */
  datatype Fetched = Fetched(
    profile: Option<string>, matchIds: seq<string>, entries: Option<seq<LeagueEntry>>,
    champion: string, duration: int)

  /** Why a reload stopped: no account, no match history, a rank request that threw, or a rank
      answer without a solo-queue entry. */
  datatype LoadError = SummonerNotFound | NoMatchHistory | RankFetchFailed | NoSoloRank

  /** The rank answer lists no solo-queue entry (it arrived, but holds none). */
  predicate NoSoloEntry(entries: Option<seq<LeagueEntry>>) {
    entries.Some? && FirstSoloEntry(entries.value).None?
  }

  datatype Loaded = Loaded(state: SummonerState, error: Option<LoadError>)

  /** Reloads the player: account, then last game id, then solo-queue rank. Each step writes
      its fields before the next step can fail, so a failure keeps what came before it. A rank
      request that throws changes nothing more; an answer without a solo entry also resets the
      tier to UNRANKED while keeping rank and LP. */
  function LoadData(s: SummonerState, f: Fetched): (r: Loaded)
    ensures r.state.name == s.name && r.state.discordId == s.discordId
    ensures f.profile.None? ==> r == Loaded(s, Some(SummonerNotFound))
    ensures f.profile.Some? ==> r.state.puuid == f.profile.value
    ensures f.profile.Some? && f.matchIds == [] ==>
              r.error == Some(NoMatchHistory) && PositionOf(r.state) == PositionOf(s)
              && r.state.lastGameId == s.lastGameId
    ensures f.profile.Some? && f.matchIds != [] ==> r.state.lastGameId == f.matchIds[0]
    ensures f.profile.Some? && f.matchIds != [] && f.entries.None? ==>
              r.error == Some(RankFetchFailed) && PositionOf(r.state) == PositionOf(s)
    ensures f.profile.Some? && f.matchIds != [] && NoSoloEntry(f.entries) ==>
              r.error == Some(NoSoloRank) && PositionOf(r.state) == Position(Unranked, s.rank, s.lp)
    ensures r.error.None? <==>
              f.profile.Some? && f.matchIds != [] && f.entries.Some? && FirstSoloEntry(f.entries.value).Some?
    ensures r.error.None? ==>
              var e := FirstSoloEntry(f.entries.value).value;
              PositionOf(r.state) == Position(StrToTier(e.tier), e.rank, e.leaguePoints)
  {
    match f.profile
    case None => Loaded(s, Some(SummonerNotFound))
    case Some(puuid) =>
      var s1 := s.(puuid := puuid);
      if f.matchIds == [] then Loaded(s1, Some(NoMatchHistory))
      else
        var s2 := s1.(lastGameId := f.matchIds[0]);
        match f.entries
        case None => Loaded(s2, Some(RankFetchFailed))
        case Some(entries) =>
          match FirstSoloEntry(entries)
          case None => Loaded(s2.(tier := Unranked), Some(NoSoloRank))
          case Some(e) =>
            Loaded(s2.(tier := StrToTier(e.tier), rank := e.rank, lp := e.leaguePoints), None)
  }

  datatype CheckError = LoadFailed(cause: LoadError) | MatchDetailsMissing

  /** What a refresh cycle returns: nothing to announce, a built message, the builder's `false`,
      or a thrown error. */
  datatype CheckOutcome =
    | NoMessage
    | Built(summary: GameSummary, message: MessageBuilder.Message)
    | NotBuilt
    | Thrown(error: CheckError)

  datatype Step = Step(state: SummonerState, outcome: CheckOutcome)

  /** One refresh cycle: snapshot the old position and game id, reload, and announce the change
      only for a new game that is not a remake. The player keeps whatever the reload wrote. */
  function Check(s: SummonerState, f: Fetched): (r: Step)
    ensures r.state == LoadData(s, f).state
    ensures r.outcome.Thrown? <==>
              LoadData(s, f).error.Some?
              || (LoadData(s, f).state.lastGameId != s.lastGameId && f.champion == "")
    // the error raised is the reload's, or the missing match details of a new game
    ensures LoadData(s, f).error.Some? ==> r.outcome == Thrown(LoadFailed(LoadData(s, f).error.value))
    ensures LoadData(s, f).error.None? && LoadData(s, f).state.lastGameId != s.lastGameId
            && f.champion == "" ==>
              r.outcome == Thrown(MatchDetailsMissing)
    // no new game id: nothing is announced, whatever the rank did
    ensures LoadData(s, f).error.None? && LoadData(s, f).state.lastGameId == s.lastGameId ==>
              r.outcome == NoMessage
    // an announced change is the classification of old against new, never a remake
    ensures r.outcome.Built? ==>
              && r.state.lastGameId != s.lastGameId
              && r.outcome.summary == CompareTotalRank(PositionOf(s), PositionOf(r.state))
              && r.outcome.summary.result != Remake
              && r.outcome.message == MessageBuilder.Build(r.outcome.summary, f.duration).value
    // a new game that changed nothing measurable is suppressed
    ensures LoadData(s, f).error.None? && LoadData(s, f).state.lastGameId != s.lastGameId
            && f.champion != ""
            && CompareTotalRank(PositionOf(s), PositionOf(r.state)).result == Remake ==>
              r.outcome == NoMessage
    // every other new game with match details is announced
    ensures LoadData(s, f).error.None? && LoadData(s, f).state.lastGameId != s.lastGameId
            && f.champion != ""
            && CompareTotalRank(PositionOf(s), PositionOf(r.state)).result != Remake ==>
              r.outcome.Built?
    // the builder's `false` branch is never reached
    ensures r.outcome != NotBuilt
  {
    var before := PositionOf(s);
    var loaded := LoadData(s, f);
    if loaded.error.Some? then Step(loaded.state, Thrown(LoadFailed(loaded.error.value)))
    else if s.lastGameId == loaded.state.lastGameId then Step(loaded.state, NoMessage)
    else if f.champion == "" then Step(loaded.state, Thrown(MatchDetailsMissing))
    else
      var summary := CompareTotalRank(before, PositionOf(loaded.state));
      if summary.result == Remake then Step(loaded.state, NoMessage)
      else
        match MessageBuilder.Build(summary, f.duration)
        case None => Step(loaded.state, NotBuilt)
        case Some(m) => Step(loaded.state, Built(summary, m))
  }

  /** A game seen by a cycle that then failed on the rank step (a request that threw, or an
      answer without a solo entry) is never announced: its id is already recorded, so the next
      cycle that sees the same latest game stays silent. */
  lemma GameLostAfterRankFailure(s: SummonerState, f1: Fetched, f2: Fetched)
    requires f1.profile.Some? && f1.matchIds != [] && (f1.entries.None? || NoSoloEntry(f1.entries))
    requires f2.matchIds != [] && f2.matchIds[0] == f1.matchIds[0]
    ensures Check(s, f1).outcome.Thrown?
    ensures Check(s, f1).outcome.error == LoadFailed(if f1.entries.None? then RankFetchFailed else NoSoloRank)
    ensures !Check(Check(s, f1).state, f2).outcome.Built?
  {
  }

  /** After a rank answer without a solo entry the player is UNRANKED with the old rank and LP,
      so the next announced game is a tier victory whatever its real result: GOLD II 50, then an
      answer listing no solo entry, then GOLD II 30 after a lost game, is announced as a tier
      victory worth 1180 points. */
  lemma NoSoloEntryThenLossIsPromotion(s: SummonerState, f1: Fetched, f2: Fetched)
    requires PositionOf(s) == Position(Gold, "II", 50)
    requires f1.profile.Some? && f1.matchIds != [] && NoSoloEntry(f1.entries)
    requires f2.profile.Some? && f2.matchIds != [] && f2.matchIds[0] != f1.matchIds[0]
    requires f2.entries == Some([LeagueEntry(SoloQueue, "GOLD", "II", 30)]) && f2.champion != ""
    ensures Check(Check(s, f1).state, f2).outcome.Built?
    ensures Check(Check(s, f1).state, f2).outcome.summary == GameSummary(Victory, TIER, 1180)
  {
    StrToTierRoundTrip(Gold);
  }

  /** A rank request that throws keeps the old position, so the same next game is announced
      as what it is: GOLD II 50, a failed request, then GOLD II 30 is a defeat of 20 LP. */
  lemma RankFetchFailureThenLossIsDefeat(s: SummonerState, f1: Fetched, f2: Fetched)
    requires PositionOf(s) == Position(Gold, "II", 50)
    requires f1.profile.Some? && f1.matchIds != [] && f1.entries.None?
    requires f2.profile.Some? && f2.matchIds != [] && f2.matchIds[0] != f1.matchIds[0]
    requires f2.entries == Some([LeagueEntry(SoloQueue, "GOLD", "II", 30)]) && f2.champion != ""
    ensures Check(Check(s, f1).state, f2).outcome.Built?
    ensures Check(Check(s, f1).state, f2).outcome.summary == GameSummary(Defeat, LP, -20)
  {
    StrToTierRoundTrip(Gold);
  }

  /** The 0-LP defeat note appears exactly for a floor loss. */
  lemma FloorLossNoteIffFloorPin(before: Position, after: Position, duration: int)
    ensures var m := MessageBuilder.Build(CompareTotalRank(before, after), duration);
      (m.Some? && m.value.body == MessageBuilder.LpBody(true)) <==>
        SamePlace(before, after) && before.lp == 0 && after.lp == 0
  {
  }

  /** For positions the ladder can produce (apex-to-apex moves aside), the LP line of an
      announced change reads back as the exact score delta. */
  lemma AnnouncedLpLineIsDelta(s: SummonerState, f: Fetched)
    requires WellFormed(PositionOf(s)) && WellFormed(PositionOf(LoadData(s, f).state))
    requires !(IsApex(s.tier) && IsApex(LoadData(s, f).state.tier))
    requires Check(s, f).outcome.Built?
    ensures var o := Check(s, f).outcome;
      MessageBuilder.SignedValue(MessageBuilder.DecodeLpLine(o.message.lpLine)) == Some(o.summary.lpDiff)
  {
    var o := Check(s, f).outcome;
    SignAgreesWithResult(PositionOf(s), PositionOf(LoadData(s, f).state));
    MessageBuilder.LpLineAnnouncesDelta(o.summary.lpDiff, o.summary.result);
  }
}
