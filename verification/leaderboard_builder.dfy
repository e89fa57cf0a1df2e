/**
 The leaderboard: players ordered by global score, highest first, one entry per player between a
 fixed header and trailer. JavaScript's sort is stable, so players with equal scores keep their input
 order; the model sorts input positions by (score descending, position ascending), which is that
 rule made explicit. The input sequence itself is a value and is never changed.
 */
module LeaderboardBuilder {
  import opened Options
  import opened Text
  import opened Ladder
  import Summoner

  /** `i` is listed before `j`: a higher score, or an equal score and an earlier input position. */
  predicate Before(scores: seq<int>, i: nat, j: nat) {
    i < |scores| && j < |scores| && (scores[i] > scores[j] || (scores[i] == scores[j] && i < j))
  }

  /** Input positions, all valid, listed in `Before` order (hence without repetition). */
  predicate Ordered(scores: seq<int>, xs: seq<nat>) {
    && (forall k :: 0 <= k < |xs| ==> xs[k] < |scores|)
    && (forall a, b {:trigger Before(scores, xs[a], xs[b])} :: 0 <= a < b < |xs| ==> Before(scores, xs[a], xs[b]))
  }

  /** Inserts position `x` into an ordered list at its place. */
  function Insert(scores: seq<int>, x: nat, xs: seq<nat>): (r: seq<nat>)
    requires x < |scores| && Ordered(scores, xs) && x !in xs
    ensures |r| == |xs| + 1
    ensures Ordered(scores, r)
    ensures forall y :: y in r <==> y == x || y in xs
    decreases |xs|
  {
    if xs == [] then [x]
    else if Before(scores, x, xs[0]) then
      assert forall b :: 0 <= b < |xs| ==> Before(scores, x, xs[b]) by {
        forall b | 0 < b < |xs|
          ensures Before(scores, x, xs[b])
        {
          assert Before(scores, xs[0], xs[b]);
        }
      }
      [x] + xs
    else
      var rest := Insert(scores, x, xs[1..]);
      assert forall k :: 0 <= k < |rest| ==> Before(scores, xs[0], rest[k]) by {
        forall k | 0 <= k < |rest|
          ensures Before(scores, xs[0], rest[k])
        {
          assert rest[k] in rest;
          if rest[k] != x {
            var m :| 0 <= m < |xs[1..]| && xs[1..][m] == rest[k];
            assert xs[m + 1] == rest[k];
          }
        }
      }
      [xs[0]] + rest
  }

  /** Positions 0 .. k-1 of the input, sorted by insertion. */
  function SortPrefix(scores: seq<int>, k: nat): (r: seq<nat>)
    requires k <= |scores|
    ensures |r| == k
    ensures Ordered(scores, r)
    ensures forall j: nat :: j in r <==> j < k
  {
    if k == 0 then [] else Insert(scores, k - 1, SortPrefix(scores, k - 1))
  }

  /** The ranking order: every input position exactly once, higher scores first, ties in
      input order. */
  function RankOrder(scores: seq<int>): (r: seq<nat>)
    ensures |r| == |scores|
    ensures Ordered(scores, r)
    ensures forall j: nat :: j in r <==> j < |scores|
  {
    SortPrefix(scores, |scores|)
  }

  /** The head of an ordered list comes before every other member. */
  lemma HeadComesFirst(scores: seq<int>, xs: seq<nat>, y: nat)
    requires Ordered(scores, xs) && y in xs
    ensures y == xs[0] || Before(scores, xs[0], y)
  {
    var k :| 0 <= k < |xs| && xs[k] == y;
    assert k == 0 || Before(scores, xs[0], xs[k]);
  }

  /** Two ordered lists holding the same positions are the same list: the ranking order is
      fully determined by the scores. */
  lemma {:induction false} OrderedUnique(scores: seq<int>, xs: seq<nat>, ys: seq<nat>)
    requires Ordered(scores, xs) && Ordered(scores, ys)
    requires forall y :: y in xs <==> y in ys
    ensures xs == ys
    decreases |xs|
  {
    assert xs != [] ==> xs[0] in xs;
    assert ys != [] ==> ys[0] in ys;
    if xs != [] {
      HeadComesFirst(scores, xs, ys[0]);
      HeadComesFirst(scores, ys, xs[0]);
      assert xs[0] == ys[0];
      forall y
        ensures y in xs[1..] <==> y in ys[1..]
      {
        if y in xs[1..] {
          var a :| 0 <= a < |xs[1..]| && xs[1..][a] == y;
          assert Before(scores, xs[0], xs[a + 1]);
          assert xs[a + 1] in xs;
          var c :| 0 <= c < |ys| && ys[c] == y;
          assert ys[1..][c - 1] == y;
        }
        if y in ys[1..] {
          var b :| 0 <= b < |ys[1..]| && ys[1..][b] == y;
          assert Before(scores, ys[0], ys[b + 1]);
          assert ys[b + 1] in ys;
          var c :| 0 <= c < |xs| && xs[c] == y;
          assert xs[1..][c - 1] == y;
        }
      }
      OrderedUnique(scores, xs[1..], ys[1..]);
      assert xs == [xs[0]] + xs[1..];
      assert ys == [ys[0]] + ys[1..];
    }
  }

  /** Any arrangement of all positions in `Before` order is the ranking order. */
  lemma RankOrderIsTheOnlyOrder(scores: seq<int>, xs: seq<nat>)
    requires Ordered(scores, xs)
    requires forall j: nat :: j in xs <==> j < |scores|
    ensures xs == RankOrder(scores)
  {
    OrderedUnique(scores, xs, RankOrder(scores));
  }

  function Scores(players: seq<Summoner.SummonerState>): (r: seq<int>)
    ensures |r| == |players|
    ensures forall i :: 0 <= i < |players| ==> r[i] == Summoner.GlobalScore(players[i])
  {
    seq(|players|, i requires 0 <= i < |players| => Summoner.GlobalScore(players[i]))
  }

  /** The players picked out by a list of positions: entry k is the player at position xs[k]. */
  function Pick<T>(players: seq<T>, xs: seq<nat>): (r: seq<T>)
    requires forall k :: 0 <= k < |xs| ==> xs[k] < |players|
    ensures |r| == |xs|
    ensures forall k :: 0 <= k < |xs| ==> r[k] == players[xs[k]]
  {
    seq(|xs|, k requires 0 <= k < |xs| => players[xs[k]])
  }

  /** Picking the players along an ordered list of positions gives scores that never increase,
      with equal scores in input order. */
  lemma PickOrdered(players: seq<Summoner.SummonerState>, order: seq<nat>)
    requires Ordered(Scores(players), order)
    ensures forall a, b :: 0 <= a < b < |order| ==>
              Summoner.GlobalScore(Pick(players, order)[a]) >= Summoner.GlobalScore(Pick(players, order)[b])
    ensures forall a, b ::
              (0 <= a < b < |order| && Summoner.GlobalScore(Pick(players, order)[a]) == Summoner.GlobalScore(Pick(players, order)[b]))
              ==> order[a] < order[b]
  {
    var scores := Scores(players);
    var r := Pick(players, order);
    forall a, b | 0 <= a < b < |order|
      ensures Summoner.GlobalScore(r[a]) >= Summoner.GlobalScore(r[b])
      ensures Summoner.GlobalScore(r[a]) == Summoner.GlobalScore(r[b]) ==> order[a] < order[b]
    {
      assert Before(scores, order[a], order[b]);
      assert Summoner.GlobalScore(r[a]) == scores[order[a]];
      assert Summoner.GlobalScore(r[b]) == scores[order[b]];
    }
  }

  /** The players in leaderboard order. */
  function Ranked(players: seq<Summoner.SummonerState>): (r: seq<Summoner.SummonerState>)
    ensures |r| == |players|
    // scores never increase down the board
    ensures forall a, b :: 0 <= a < b < |r| ==>
              Summoner.GlobalScore(r[a]) >= Summoner.GlobalScore(r[b])
    // entry k is input player RankOrder[k]; equal scores keep their input order
    ensures forall k :: 0 <= k < |r| ==> r[k] == players[RankOrder(Scores(players))[k]]
    ensures forall a, b :: 0 <= a < b < |r| && Summoner.GlobalScore(r[a]) == Summoner.GlobalScore(r[b]) ==>
              RankOrder(Scores(players))[a] < RankOrder(Scores(players))[b]
  {
    var order := RankOrder(Scores(players));
    PickOrdered(players, order);
    Pick(players, order)
  }

  /** Picking distributes over concatenation. */
  lemma PickConcat<T>(players: seq<T>, xs: seq<nat>, ys: seq<nat>)
    requires forall k :: 0 <= k < |xs| ==> xs[k] < |players|
    requires forall k :: 0 <= k < |ys| ==> ys[k] < |players|
    ensures Pick(players, xs + ys) == Pick(players, xs) + Pick(players, ys)
  {
    assert forall k :: 0 <= k < |xs + ys| ==> (xs + ys)[k] < |players|;
  }

  /** Insertion puts the new position somewhere between the old ones, which keep their order. */
  lemma {:induction false} InsertSplits(scores: seq<int>, x: nat, xs: seq<nat>) returns (i: nat)
    requires x < |scores| && Ordered(scores, xs) && x !in xs
    ensures i <= |xs| && Insert(scores, x, xs) == xs[..i] + [x] + xs[i..]
    decreases |xs|
  {
    if xs == [] || Before(scores, x, xs[0]) {
      i := 0;
    } else {
      var j := InsertSplits(scores, x, xs[1..]);
      i := j + 1;
      assert xs[..i] == [xs[0]] + xs[1..][..j];
      assert xs[i..] == xs[1..][j..];
    }
  }

  /** Picking a list with one more position adds exactly that position's player. */
  lemma PickInserted<T>(players: seq<T>, xs: seq<nat>, i: nat, x: nat)
    requires forall k :: 0 <= k < |xs| ==> xs[k] < |players|
    requires i <= |xs| && x < |players|
    ensures multiset(Pick(players, xs[..i] + [x] + xs[i..])) == multiset(Pick(players, xs)) + multiset{players[x]}
  {
    var lo, hi := xs[..i], xs[i..];
    var p, q := Pick(players, lo), Pick(players, hi);
    assert Pick(players, lo + [x] + hi) == p + [players[x]] + q by {
      PickConcat(players, lo + [x], hi);
      PickConcat(players, lo, [x]);
      assert Pick(players, [x]) == [players[x]];
    }
    assert Pick(players, xs) == p + q by {
      assert lo + hi == xs;
      PickConcat(players, lo, hi);
    }
    assert multiset(p + [players[x]] + q) == multiset(p + q) + multiset{players[x]};
  }

  /** Sorting one more position inserts it somewhere into the previous order. */
  lemma SortPrefixSplits(scores: seq<int>, k: nat) returns (i: nat)
    requires 0 < k <= |scores|
    ensures i <= k - 1
    ensures SortPrefix(scores, k) == SortPrefix(scores, k - 1)[..i] + [k - 1] + SortPrefix(scores, k - 1)[i..]
  {
    i := InsertSplits(scores, k - 1, SortPrefix(scores, k - 1));
  }

  /** Sorting one more position adds exactly that position's player to the pick. */
  lemma PickSortStep<T>(players: seq<T>, scores: seq<int>, k: nat)
    requires |scores| == |players| && 0 < k <= |players|
    ensures multiset(Pick(players, SortPrefix(scores, k)))
              == multiset(Pick(players, SortPrefix(scores, k - 1))) + multiset{players[k - 1]}
  {
    var i := SortPrefixSplits(scores, k);
    PickInserted(players, SortPrefix(scores, k - 1), i, k - 1);
  }

  /** The first k elements are the first k - 1 and element k - 1. */
  lemma PrefixGrows<T>(s: seq<T>, k: nat)
    requires 0 < k <= |s|
    ensures multiset(s[..k]) == multiset(s[..k - 1]) + multiset{s[k - 1]}
  {
    assert s[..k] == s[..k - 1] + [s[k - 1]];
  }

  /** Picking the sorted first k positions gives the first k players, in some order. */
  lemma {:induction false} PickSortPrefix<T>(players: seq<T>, scores: seq<int>, k: nat)
    requires |scores| == |players| && k <= |players|
    ensures multiset(Pick(players, SortPrefix(scores, k))) == multiset(players[..k])
  {
    if k > 0 {
      PickSortStep(players, scores, k);
      PickSortPrefix(players, scores, k - 1);
      PrefixGrows(players, k);
    }
  }

  /** The leaderboard is a permutation of the players. */
  lemma RankedIsPermutation(players: seq<Summoner.SummonerState>)
    ensures multiset(Ranked(players)) == multiset(players)
  {
    PickSortPrefix(players, Scores(players), |players|);
    assert players[..|players|] == players;
  }

  /** Medal for the first three places, the bold place number for the others. */
  function Prefix(index: nat): string {
    if index == 0 then ":first_place:"
    else if index == 1 then ":second_place:"
    else if index == 2 then ":third_place:"
    else "**" + NatToString(index + 1) + ".**"
  }

  /** The three medals go to the first, second and third place, in that order. */
  lemma MedalsForTopThree()
    ensures Prefix(0) == ":first_place:"
    ensures Prefix(1) == ":second_place:"
    ensures Prefix(2) == ":third_place:"
  {
  }

  /** Different places get different prefixes. */
  lemma {:induction false} PrefixInjective(i: nat, j: nat)
    ensures Prefix(i) == Prefix(j) ==> i == j
  {
    if i >= 3 {
      assert Prefix(i)[0] == '*';
    }
    if j >= 3 {
      assert Prefix(j)[0] == '*';
    }
    if Prefix(i) == Prefix(j) && i >= 3 && j >= 3 {
      var a, b := NatToString(i + 1), NatToString(j + 1);
      assert ("**" + a + ".**")[2..|a| + 2] == a;
      assert |a| == |b|;
      assert ("**" + b + ".**")[2..|b| + 2] == b;
      NatToStringInjective(i + 1, j + 1);
    }
  }

  /** Place 4 onwards shows its 1-based number. */
  lemma PrefixShowsPlace(i: nat)
    requires i >= 3
    ensures var p := Prefix(i);
      |p| >= 5 && p[..2] == "**" && p[|p| - 3..] == ".**" && ParseInt(p[2..|p| - 3]) == Some(i + 1)
  {
    var a := NatToString(i + 1);
    SlicesOfConcat("**", a, ".**");
    ParseIntOfIntToString(i + 1);
  }

  /** The first line: a zero-width space followed by 17 em spaces, which widens the embed. */
  const Header: string := "\U{200B}\U{2003}\U{2003}\U{2003}\U{2003}\U{2003}\U{2003}\U{2003}\U{2003}\U{2003}\U{2003}\U{2003}\U{2003}\U{2003}\U{2003}\U{2003}\U{2003}\U{2003}\n"

  const Trailer: string := "\U{200B}\n"

  /** The start of every entry: place prefix, mention, and the opening of the italic rank. */
  function EntryHead(index: nat, s: Summoner.SummonerState): string {
    Prefix(index) + " " + Summoner.DiscordAt(s) + "\n\U{2003} *"
  }

  /** One player's entry: the place prefix and mention, then the tier alone for an UNRANKED
      player, or tier, rank and LP otherwise. */
  function Entry(index: nat, s: Summoner.SummonerState): (e: string)
    ensures EntryHead(index, s) <= e
    ensures s.tier == Unranked <==> e == EntryHead(index, s) + TierName(Unranked) + "*\n\n"
  {
    var head := EntryHead(index, s);
    if s.tier == Unranked then head + TierName(s.tier) + "*\n\n"
    else
      var e := RankedLine(head, TierName(s.tier), s.rank, IntToString(s.lp));
      RankedLineSlices(head, TierName(s.tier), s.rank, IntToString(s.lp));
      TierNameLength(s.tier);
      assert |head + TierName(Unranked) + "*\n\n"| == |head| + 11;
      e
  }

  /** The line of a ranked player: head, tier, rank, and the LP in bold. */
  function RankedLine(head: string, tier: string, rank: string, lpText: string): string {
    head + tier + " " + rank + "* **" + lpText + " LP**\n\n"
  }

  /** The fields of a ranked line can be cut back out of it at their offsets. */
  lemma RankedLineSlices(head: string, tn: string, rank: string, lpText: string)
    ensures var e := RankedLine(head, tn, rank, lpText);
      var h, t, k, p := |head|, |tn|, |rank|, |lpText|;
      && |e| == h + t + 1 + k + 4 + p + 7
      && e[h..h + t] == tn
      && e[h + t] == ' '
      && e[h + t + 1..h + t + 1 + k] == rank
      && e[h + t + 1 + k..h + t + 1 + k + 4] == "* **"
      && e[h + t + 1 + k + 4..h + t + 1 + k + 4 + p] == lpText
      && e[h + t + 1 + k + 4 + p..] == " LP**\n\n"
  {
    var tail := " LP**\n\n";
    SlicesOfConcat(head, tn, " " + rank + "* **" + lpText + tail);
    SlicesOfConcat(head + tn + " ", rank, "* **" + lpText + tail);
    SlicesOfConcat(head + tn + " " + rank, "* **", lpText + tail);
    SlicesOfConcat(head + tn + " " + rank + "* **", lpText, tail);
  }

  /** A ranked player's entry shows, after its head, the tier (reading back as the player's
      tier), a space, the rank string, and the LP in bold (reading back as the player's LP). */
  lemma EntryShowsPosition(index: nat, s: Summoner.SummonerState)
    requires s.tier != Unranked
    ensures var e, h := Entry(index, s), |EntryHead(index, s)|;
      var t, k, p := |TierName(s.tier)|, |s.rank|, |IntToString(s.lp)|;
      && |e| == h + t + 1 + k + 4 + p + 7
      && Summoner.StrToTier(e[h..h + t]) == s.tier
      && e[h + t] == ' '
      && e[h + t + 1..h + t + 1 + k] == s.rank
      && e[h + t + 1 + k..h + t + 1 + k + 4] == "* **"
      && ParseInt(e[h + t + 1 + k + 4..h + t + 1 + k + 4 + p]) == Some(s.lp)
      && e[h + t + 1 + k + 4 + p..] == " LP**\n\n"
  {
    RankedLineSlices(EntryHead(index, s), TierName(s.tier), s.rank, IntToString(s.lp));
    Summoner.StrToTierRoundTrip(s.tier);
    ParseIntOfIntToString(s.lp);
  }

  function Concat(lines: seq<string>): string {
    if lines == [] then "" else lines[0] + Concat(lines[1..])
  }

  /** Concatenation distributes over joining two lists of lines. */
  lemma {:induction false} ConcatSplit(a: seq<string>, b: seq<string>)
    ensures Concat(a + b) == Concat(a) + Concat(b)
    decreases |a|
  {
    if a == [] {
      assert a + b == b;
    } else {
      assert (a + b)[0] == a[0];
      assert (a + b)[1..] == a[1..] + b;
      ConcatSplit(a[1..], b);
    }
  }

  /** Line k of a concatenation sits right after the lines before it. */
  lemma ConcatAt(lines: seq<string>, k: nat)
    requires k < |lines|
    ensures var off := |Concat(lines[..k])|;
      off + |lines[k]| <= |Concat(lines)| && Concat(lines)[off..off + |lines[k]|] == lines[k]
  {
    var before, rest := lines[..k], lines[k + 1..];
    assert lines == before + ([lines[k]] + rest);
    ConcatSplit(before, [lines[k]] + rest);
    ConcatSplit([lines[k]], rest);
    assert Concat([lines[k]]) == lines[k] by {
      assert [lines[k]][1..] == [];
    }
    SlicesOfConcat(Concat(before), lines[k], Concat(rest));
  }

  /** The entries of the board, one per player, in ranking order. */
  function Entries(players: seq<Summoner.SummonerState>): (r: seq<string>)
    ensures |r| == |players|
    ensures forall k :: 0 <= k < |r| ==> r[k] == Entry(k, Ranked(players)[k])
  {
    var ranked := Ranked(players);
    seq(|ranked|, k requires 0 <= k < |ranked| => Entry(k, ranked[k]))
  }

  /** The board's text: header, one entry per player, trailer. */
  function Build(players: seq<Summoner.SummonerState>): (d: string)
    ensures |d| >= |Header| + |Trailer|
    ensures d[..|Header|] == Header
    ensures d[|d| - |Trailer|..] == Trailer
    ensures d[|Header|..|d| - |Trailer|] == Concat(Entries(players))
    ensures players == [] ==> d == Header + Trailer
  {
    var body := Concat(Entries(players));
    SlicesOfConcat(Header, body, Trailer);
    assert players == [] ==> body == [];
    Header + body + Trailer
  }

  /** Line k of a framed concatenation sits after the header and the lines before it. */
  lemma FramedLineAt(lines: seq<string>, k: nat)
    requires k < |lines|
    ensures var d := Header + Concat(lines) + Trailer;
      var off := |Header| + |Concat(lines[..k])|;
      off + |lines[k]| <= |d| && d[off..off + |lines[k]|] == lines[k]
  {
    var body := Concat(lines);
    var d := Header + body + Trailer;
    ConcatAt(lines, k);
    var off := |Concat(lines[..k])|;
    SlicesOfConcat(Header, body, Trailer);
    assert d[|Header| + off..|Header| + off + |lines[k]|] == body[off..off + |lines[k]|];
  }

  /** The entry of place k sits in the board right after the header and the entries of the
      places before it. */
  lemma BuildPlacesEntry(players: seq<Summoner.SummonerState>, k: nat)
    requires k < |players|
    ensures var d, es := Build(players), Entries(players);
      var off := |Header| + |Concat(es[..k])|;
      off + |es[k]| <= |d| && d[off..off + |es[k]|] == Entry(k, Ranked(players)[k])
  {
    FramedLineAt(Entries(players), k);
  }
}
