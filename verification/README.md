# Ranked tracker core, modelled in Dafny

The tracker follows League of Legends players in the solo/duo ranked queue and posts to Discord
whenever one of them finishes a game. This project models the rank-progression core of the
tracker as pure Dafny functions and proves properties about it:

- the **score model**: one integer per ladder position (tier base + division offset + LP), and LP
  deltas as score differences (`RankCalculator`);
- the **tracked player** (`Summoner`): the tier and division comparisons, the tier-name parser, the
  classifier that turns an old and a new position into a game result, a change type and an LP
  delta, the reload from the remote service, the refresh cycle, and the op.gg link;
- the **notification**'s pure parts (`MessageBuilder`): whether a message is built at all, which
  body the change type selects, the 0-LP defeat note, the `m:ss` duration and the signed LP line;
- the **leaderboard** (`LeaderboardBuilder`): the stable ordering by score and the text of each
  entry;
- the **legacy player** (`LegacySummoner`), the first version of the player that still ships next
  to the current one, with its own loader and its French change messages.

`Options` holds the optional value; `Text` holds decimal rendering and parsing and ASCII case
mapping; `Ladder` holds the vocabulary shared by every module (tiers, divisions, positions, game results, change types).

Remote calls are not made: what a refresh cycle would fetch is passed in as a value (`Fetched` for
the current player; an optional profile and a list of league entries for the legacy one). A failed
account lookup is `None`. A match history that is missing or empty fails the same way, so both
are the empty list. The rank request of the current player has two distinct failures: a request
that throws is `None` and keeps the old tier, while an answer without a solo-queue entry resets
the tier to UNRANKED.

Three behaviours of the code worth knowing:

- a refresh is not atomic: the reload writes the puuid, then the last game id, then the rank, and a
  failing step keeps what came before it; an answer without a solo-queue entry also resets the tier
  to UNRANKED before the error is raised (`Summoner.LoadData`);
- an unknown tier string becomes UNRANKED instead of being rejected (`Summoner.StrToTier`);
- the LP delta carried by every classification is the score difference, including for
  division and tier changes.

## Model

| member | source | states |
|---|---|---|
| Ladder.TierIndex | src/classes/Summoner.ts:183-186 | tier order is the position in IRON..CHALLENGER; -1 exactly for UNRANKED |
| Ladder.ParseRank | src/classes/Summoner.ts:190-193 | a rank string is a listed division exactly when it equals that division's name (case-sensitive); every other string is `Other` |
| Ladder.IndexOf | src/classes/Summoner.ts:184-186 | the result is -1 exactly when the string is absent, and otherwise a position holding it with no earlier occurrence, as `indexOf` answers |
| Ladder.TierIndexIsOrderPosition | src/classes/Summoner.ts:183-186 | every tier's index is its name's position in the list IRON..CHALLENGER, GRANDMASTER before CHALLENGER included; UNRANKED is not listed |
| Ladder.DivisionIndexIsOrderPosition | src/classes/Summoner.ts:190-193 | for every rank string, its division index is its position in the list IV, III, II, I, and -1 when it is not listed |
| RankCalculator.TierValue | src/utils/RankCalculator.ts:4-16 | the tier table entry by entry; its shape (400 per step, clamped to IRON..MASTER) is stated by `TierValueFormula` |
| RankCalculator.RankValue | src/utils/RankCalculator.ts:18-23 | the division table, an unlisted rank counting 0; its shape (100 per step from IV) is stated by `RankValueFormula` |
| RankCalculator.TierValueFormula | src/utils/RankCalculator.ts:4-16 | a tier's base is 400 times its index clamped to IRON..MASTER, so UNRANKED counts as IRON and the apex tiers share 2800 |
| RankCalculator.RankValueFormula | src/utils/RankCalculator.ts:18-27 | a division's offset is 100 per step from IV; an unlisted rank counts 0 |
| RankCalculator.GlobalLp | src/utils/RankCalculator.ts:25-29 | on positions the ladder can produce the score is non-negative and reaches 2800 exactly at the apex tiers; its monotonicity is stated by the three lemmas below |
| RankCalculator.GlobalLpStrictInLp | src/utils/RankCalculator.ts:25-29 | with tier and rank fixed, more LP is a strictly higher score |
| RankCalculator.GlobalLpStrictInDivision | src/utils/RankCalculator.ts:25-29 | with tier and LP fixed, a higher division is a strictly higher score |
| RankCalculator.GlobalLpMonotoneInTier | src/utils/RankCalculator.ts:4-16 | a higher tier never scores lower, and strictly higher from IRON up to MASTER |
| RankCalculator.ScoreTies | src/utils/RankCalculator.ts:5-15 | the score does not separate UNRANKED from IRON nor the apex tiers from each other |
| RankCalculator.ScoreOrderIsLexicographic | src/utils/RankCalculator.ts:25-29 | below MASTER, with a listed division and 0..99 LP, a lower score is exactly a lexicographically lower (tier, division, LP) |
| RankCalculator.LpDiff | src/utils/RankCalculator.ts:31-35 | below MASTER the delta is positive exactly for a move up the (tier, division, LP) order and negative exactly for a move down |
| RankCalculator.LpDiffAntisymmetric | src/utils/RankCalculator.ts:31-35 | swapping old and new negates the delta |
| RankCalculator.LpDiffZeroForSame | src/utils/RankCalculator.ts:31-35 | an unchanged position has delta 0 |
| RankCalculator.LpDiffWithinDivision | src/utils/RankCalculator.ts:31-35 | within one tier and division the delta is the LP difference |
| Summoner.CompareTier | src/classes/Summoner.ts:182-187 | always one of upgrade/downgrade/same; same exactly for equal tiers, upgrade exactly for a higher index |
| Summoner.CompareRank | src/classes/Summoner.ts:189-194 | always one of the three answers; same exactly when both strings denote the same division (all unlisted strings alike), upgrade exactly for a higher division |
| Summoner.ComparisonsAntisymmetric | src/classes/Summoner.ts:182-194 | swapping the arguments of either comparison flips the answer |
| Summoner.StrToTier | src/classes/Summoner.ts:200-246 | the upper-cased string names the returned tier, or no tier at all when UNRANKED is returned |
| Summoner.StrToTierRoundTrip | src/classes/Summoner.ts:200-246 | every tier name, in upper or lower case, reads back as its tier |
| Summoner.CompareTotalRank | src/classes/Summoner.ts:148-180 | TIER exactly when the tier changed, RANK exactly for a division change within a tier, LP for the same place with changed LP or a 0-LP floor; remake exactly for the same place with equal non-zero LP; victory exactly for a higher tier, division or LP; the delta is the score difference; the fallback branch is unreachable |
| Summoner.FloorLossIsDefeat | src/classes/Summoner.ts:159-160 | 0 LP before and after in one division is a defeat with delta 0 |
| Summoner.SignAgreesWithResult | src/classes/Summoner.ts:148-180 | for well-formed positions not both apex, a victory has a positive delta and a defeat a negative one, except the floor loss |
| Summoner.UnrankedToIronGainsNothing | src/classes/Summoner.ts:173-175 | from UNRANKED at 0 LP (rank not a division) to IRON IV at 0 LP is a tier victory with delta 0 |
| Summoner.ApexPromotionCanLosePoints | src/classes/Summoner.ts:173-175 | well-formed MASTER I 300 to GRANDMASTER I 250 is a tier victory with delta -50, the case the sign lemma excludes |
| Summoner.ClassifierExamples | tests/classes/Summoner.test.ts:150-181 | the tested moves give the expected results, with the delta carrying its real sign |
| Summoner.NewSummoner | src/classes/Summoner.ts:19-28 | a new player keeps the given name, puuid and Discord id, and is UNRANKED with an empty rank, 0 LP, no game seen, and score 0 |
| Summoner.GlobalScore | src/classes/Summoner.ts:54-56 | the player's score is the score of its stored position; a new player scores 0 (`NewSummoner`) and the board sorts by it (`LeaderboardBuilder.Ranked`) |
| Summoner.EncodeSpaces | src/classes/Summoner.ts:144 | the encoded name contains no whitespace and grows by two characters per whitespace character; a name without whitespace is unchanged |
| Summoner.EncodeSpacesRoundTrip | src/classes/Summoner.ts:144 | for a name without '%', reading "%20" back as a space gives the name with every whitespace character as a space and every other character in its place |
| Summoner.EncodeSpacesRecoversName | src/classes/Summoner.ts:144 | a name without '%' whose only whitespace is plain spaces is recovered exactly from its encoding |
| Summoner.GetOpggLink | src/classes/Summoner.ts:143-146 | the link is the op.gg base, then exactly the encoded name, then "-" and the tag |
| Summoner.FirstSoloEntry | src/classes/Summoner.ts:77-81 | the result is absent exactly when no entry is a solo-queue entry; otherwise it is the first solo-queue entry |
| Summoner.LoadData | src/classes/Summoner.ts:58-89 | a missing account changes nothing; an empty match history keeps the position and game id; a rank request that throws records the new game id and keeps the position; an answer without a solo entry records the new game id and sets UNRANKED keeping rank and LP; success reads tier, rank and LP from the first solo entry |
| Summoner.Check | src/classes/Summoner.ts:91-109 | the player keeps what the reload wrote; an error is raised exactly for a failed reload (that reload's error) or missing match details of a new game (`MatchDetailsMissing`); no new game id means no message; an announced change is the classification of old against new, never a remake, with the message built from it; every other new game with match details is announced; the builder's false branch is never reached |
| Summoner.GameLostAfterRankFailure | src/classes/Summoner.ts:76-84 | a game seen by a cycle whose rank step failed (request thrown or no solo entry) is never announced by a following cycle that sees the same latest game |
| Summoner.NoSoloEntryThenLossIsPromotion | src/classes/Summoner.ts:79-84 | after a rank answer without a solo entry from GOLD II 50, a loss to GOLD II 30 is announced as a tier victory worth 1180 points |
| Summoner.RankFetchFailureThenLossIsDefeat | src/classes/Summoner.ts:76-78 | after a rank request that throws from GOLD II 50, the same loss to GOLD II 30 is announced as an LP defeat of 20 |
| Summoner.FloorLossNoteIffFloorPin | src/classes/MessageBuilder.ts:59-67 | the 0-LP defeat note appears exactly when the player stayed at 0 LP in one division |
| Summoner.AnnouncedLpLineIsDelta | src/classes/MessageBuilder.ts:108-111 | for well-formed positions not both apex, the announced LP line reads back as the exact score delta |
| MessageBuilder.Build | src/classes/MessageBuilder.ts:15-56 | no message exactly for a remake or an unknown change type; otherwise the title is the result, the body matches the change type, the floor-loss note is set exactly for a defeat with delta 0, and the LP line carries the delta |
| MessageBuilder.BuildLp | src/classes/MessageBuilder.ts:58-71 | the LP body; `Build` states that its 0-LP note is set exactly for a defeat with delta 0, and `Summoner.FloorLossNoteIffFloorPin` that this is exactly the same-place 0 to 0 move |
| MessageBuilder.JsRemainder | src/classes/MessageBuilder.ts:101 | the remainder takes the dividend's sign, is smaller in magnitude than the divisor, and the dividend is the divisor times the quotient truncated toward zero plus the remainder |
| MessageBuilder.JsRemainderUnique | src/classes/MessageBuilder.ts:101 | any value with the dividend's sign, below the divisor in magnitude and differing from the dividend by a multiple of the divisor is that remainder |
| MessageBuilder.FormatGameDuration | src/classes/MessageBuilder.ts:99-106 | for a non-negative duration the text ends with a colon and two digits |
| MessageBuilder.DurationRoundTrip | src/classes/MessageBuilder.ts:99-106 | reading `m:ss` back gives the duration in seconds, for every non-negative duration |
| MessageBuilder.NegativeDurationText | src/classes/MessageBuilder.ts:99-106 | a negative duration is printed with JavaScript's floor and truncated remainder (-61 prints "-2:0-1") |
| MessageBuilder.LpDiffLine | src/classes/MessageBuilder.ts:108-111 | the bold LP line; `LpLineRoundTrip` reads it back as the sign and the magnitude of the delta |
| MessageBuilder.LpPrefix | src/classes/MessageBuilder.ts:109 | the sign is "-" exactly for a defeat, "+" exactly for a victory and empty exactly for a remake |
| MessageBuilder.LpLineRoundTrip | src/classes/MessageBuilder.ts:108-111 | the LP line reads back as the result's sign and the delta's magnitude |
| MessageBuilder.LpLineAnnouncesDelta | src/classes/MessageBuilder.ts:108-111 | the LP line announces the true delta exactly when the result's sign agrees with the delta's sign |
| LeaderboardBuilder.Insert | src/classes/LeaderboardBuilder.ts:6 | inserting a position into an ordered list keeps it ordered and adds exactly that position |
| LeaderboardBuilder.RankOrder | src/classes/LeaderboardBuilder.ts:6 | the ranking order lists every player position exactly once, higher scores first and ties in input order |
| LeaderboardBuilder.RankOrderIsTheOnlyOrder | src/classes/LeaderboardBuilder.ts:6 | any ordering of all positions by (score descending, input position) is the ranking order, so a stable descending sort gives it |
| LeaderboardBuilder.Ranked | src/classes/LeaderboardBuilder.ts:6 | scores never increase down the board and players with equal scores keep their input order |
| LeaderboardBuilder.RankedIsPermutation | src/classes/LeaderboardBuilder.ts:6 | the board holds exactly the input players, each as often as in the input |
| LeaderboardBuilder.Prefix | src/classes/LeaderboardBuilder.ts:17-23 | medals for the first three places, the bold place number after; `PrefixInjective` and `PrefixShowsPlace` state what it shows |
| LeaderboardBuilder.MedalsForTopThree | src/classes/LeaderboardBuilder.ts:19-21 | the first, second and third place get the first-, second- and third-place medals |
| LeaderboardBuilder.PrefixInjective | src/classes/LeaderboardBuilder.ts:16-23 | different places get different prefixes |
| LeaderboardBuilder.PrefixShowsPlace | src/classes/LeaderboardBuilder.ts:22 | from the fourth place on, the prefix is the bold 1-based place number |
| LeaderboardBuilder.Entry | src/classes/LeaderboardBuilder.ts:25-29 | every entry starts with the place prefix and mention; an entry is the tier-only line exactly for an UNRANKED player |
| LeaderboardBuilder.EntryShowsPosition | src/classes/LeaderboardBuilder.ts:28 | a ranked player's entry shows, in order, the tier name (reading back as the tier), the rank string and the LP (reading back as the LP) in bold |
| LeaderboardBuilder.Entries | src/classes/LeaderboardBuilder.ts:16-30 | one entry per player, entry k for the player in place k |
| LeaderboardBuilder.Build | src/classes/LeaderboardBuilder.ts:13-32 | the board is the width line, then the entries of all places in ranking order, then the trailer; without players it is just the two lines |
| LeaderboardBuilder.BuildPlacesEntry | src/classes/LeaderboardBuilder.ts:16-30 | the entry of place k sits in the board right after the width line and the entries of the places before it |
| LegacySummoner.NewLegacy | classes/entity/Summoner.ts:13-21 | a new legacy player has no ids, the unranked tier, an empty rank and 0 LP |
| LegacySummoner.LegacyTierName | classes/entity/Summoner.ts:68 | listed tiers print under their name; the unranked value prints as a non-empty name other than UNRANKED |
| LegacySummoner.LegacyTierIndexIsOrderPosition | classes/entity/Summoner.ts:96-99 | with the legacy tier names the same list gives the same index; the legacy unranked value is not listed |
| LegacySummoner.LoadData | classes/entity/Summoner.ts:43-57 | a missing account changes nothing; otherwise the ids are stored, and the position comes from the first entry when there is one and is kept otherwise |
| LegacySummoner.LegacyReadsAnyQueue | classes/entity/Summoner.ts:52 | a flexible-queue entry listed first is read as the player's rank, where the current loader takes the solo entry |
| LegacySummoner.PlaceMove | classes/entity/Summoner.ts:71-92 | tier up/down exactly for a higher/lower tier index, division up/down exactly for a division move within a tier, no change exactly for the same place |
| LegacySummoner.LegacyClassify | classes/entity/Summoner.ts:70-92 | as written: in the same place a rise in LP is reported as a loss with a negative amount and a fall as a gain |
| LegacySummoner.Classify | classes/entity/Summoner.ts:70-92 | as intended: a rise is a gain and a fall a loss, both of the positive LP difference; no change exactly for an unchanged place and LP |
| LegacySummoner.LegacyLabelsSwapped | classes/entity/Summoner.ts:74-77 | the written and intended classifiers differ exactly by swapped LP labels and a negated loss amount |
| LegacySummoner.ClassifyAgreesWithCurrent | classes/entity/Summoner.ts:67-93 | the intended legacy verdict corresponds one-to-one with the current classification, amounts equal to the delta, except the 0-LP floor loss that only the current one reports |
| LegacySummoner.Message | classes/entity/Summoner.ts:68-92 | no message exactly for no change; otherwise it starts with the player's name, ends with the new tier, rank and LP line, and its sentence reads back as the verdict |
| LegacySummoner.SentenceRoundTrip | classes/entity/Summoner.ts:75-92 | each of the six sentences (lose or gain an amount, go down or up a division or a tier) reads back as the verdict it announces |
| LegacySummoner.LegacyCompareTotalRank | classes/entity/Summoner.ts:67-93 | as written, a message is produced exactly when the place or the LP changed, and it reads back as the as-written verdict |
| LegacySummoner.CompareTotalRank | classes/entity/Summoner.ts:67-93 | as intended, a message is produced exactly when the place or the LP changed, and it reads back as the intended verdict |
| LegacySummoner.LegacyGainReadsAsLoss | classes/entity/Summoner.ts:75 | GOLD IV 30 to GOLD IV 50 is announced as "vient de perdre --20 LP" |
| LegacySummoner.GainReadsAsGain | classes/entity/Summoner.ts:75-77 | with the intended labels the same game is announced as "vient de gagner +20 LP" |
| LegacySummoner.Check | classes/entity/Summoner.ts:59-65 | the player keeps the reloaded state; a failed reload announces nothing; a message names the player, appears exactly when the intended verdict is a change, and reads back as that verdict |

## Left out

- Remote calls, the Discord client, scheduling, delays and logging: fetched data is a parameter.
- Embed rendering (titles, colours, thumbnails, the champion and score fields, the op.gg field,
  the rank descriptions of the division and tier bodies): the model keeps the parts that decide
  what is announced.
- The leaderboard entry's games count: the player class has no `getNbWins` or `getNbLosses`
  method, so for a ranked player the call at src/classes/LeaderboardBuilder.ts:28 throws a
  `TypeError` (and the file does not type-check), and the board is never printed once a ranked
  player is tracked. `LeaderboardBuilder.Entry` shows the ranked line without the games suffix.
- The account lookup: src/services/apiRiot.ts has no `getSummonerByPuuid`, which the player class
  calls at src/classes/Summoner.ts:59 (the repository's tests mock it); the service file shown
  predates the player class, so the model assumes the lookup exists and answers with an
  optional profile in `Fetched`.
- `getLastMatch`: the champion and duration it extracts are fields of `Fetched`; an empty
  champion stands for missing match details.
- Summoner.StrToTier: upper-casing is ASCII only; JavaScript's full Unicode upper-casing is not
  modelled.
- LegacySummoner.LegacyTierName: the string value of the legacy unranked tier is defined in a
  file that is not part of this model; it is assumed to be "UNRANK".
- LegacySummoner.Check: announces through the intended classifier; the classifier as written is
  `LegacySummoner.LegacyClassify`.
- `src/types/tier.ts` is not part of this model; tier string values are the names in the
  comparison list plus "UNRANKED".
- The repository's tests read a `value` field the summary no longer has and expect an unsigned
  delta; `Summoner.ClassifierExamples` states the signed delta the classifier returns.
- RankCalculator.RankValueFormula: the division lookup `RANK_VALUES[rank] || 0` also finds
  inherited object members for rank strings such as "constructor" or "toString", and the score
  then becomes a concatenated string; the ranking API never sends such ranks, so every unlisted
  rank counts 0 here.
- Numbers are unbounded integers: JavaScript's floating-point arithmetic is exact on the small
  integral values involved.

## Findings

| source | as written | input that shows it | evidently intended | confidence | as-written member | corrected member |
|---|---|---|---|---|---|---|
| classes/entity/Summoner.ts:75-77 | in the same tier and division, a rise in LP is announced as "vient de perdre -(old-new)" and a fall as "vient de gagner +(old-new)" | old GOLD IV 30, new GOLD IV 50, name "X": "X vient de perdre --20 LP" | a rise is a gain of new-old and a fall a loss of old-new, as the current classifier decides | high; not executed | LegacySummoner.LegacyClassify | LegacySummoner.Classify |
