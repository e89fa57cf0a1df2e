/**
 The pure parts of the game notification: whether a message is built at all, which body the
 change type selects, the 0-LP defeat note, the `m:ss` game duration and the signed LP line.
 Embed titles, colours, thumbnails and the rank text are rendering and are not modelled.
 */
module MessageBuilder {
  import opened Options
  import opened Text
  import opened Ladder

  /** The body a change type selects: an LP update (with or without the 0-LP defeat note),
      a division change or a tier change, each carrying the game result it announces. */
  datatype Body = LpBody(floorLossNote: bool) | RankBody(result: GameResult) | TierBody(result: GameResult)

  datatype Message = Message(title: GameResult, duration: string, body: Body, lpLine: string)

  /** The notification for a game summary, or `None` where the builder answers `false`:
      for a remake (checked before anything is added) and for a change type it does not know. */
  function Build(summary: GameSummary, duration: int): (r: Option<Message>)
    ensures r.None? <==> summary.result == Remake || summary.changeType == NOTHING
    ensures r.Some? ==> r.value.title == summary.result
    ensures r.Some? ==> r.value.duration == FormatGameDuration(duration)
    ensures r.Some? ==> r.value.lpLine == LpDiffLine(summary.lpDiff, summary.result)
    ensures r.Some? ==> (r.value.body.LpBody? <==> summary.changeType == LP)
    ensures r.Some? ==> (r.value.body.RankBody? <==> summary.changeType == RANK)
    ensures r.Some? ==> (r.value.body.TierBody? <==> summary.changeType == TIER)
    ensures r.Some? && r.value.body.LpBody? ==>
              (r.value.body.floorLossNote <==> summary.result == Defeat && summary.lpDiff == 0)
    ensures r.Some? && !r.value.body.LpBody? ==> r.value.body.result == summary.result
  {
    if summary.result == Remake then None
    else
      var body :=
        match summary.changeType
        case LP => Some(BuildLp(summary.result, summary.lpDiff))
        case RANK => Some(RankBody(summary.result))
        case TIER => Some(TierBody(summary.result))
        case NOTHING => None;
      if body.None? then None
      else Some(Message(summary.result, FormatGameDuration(duration), body.value,
                        LpDiffLine(summary.lpDiff, summary.result)))
  }

  /** The LP body; the 0-LP defeat note is added only for a defeat that changed nothing. */
  function BuildLp(result: GameResult, lpDiff: int): Body {
    LpBody(result == Defeat && lpDiff == 0)
  }

  /** JavaScript's integer division result before flooring: the quotient truncated toward zero. */
  function JsQuotient(a: int, n: int): int
    requires n > 0
  {
    if a >= 0 then a / n else -((-a) / n)
  }

  /** JavaScript's `%`: the remainder takes the sign of the dividend, and the dividend is the
      divisor times the truncated quotient plus the remainder. */
  function JsRemainder(a: int, n: int): (r: int)
    requires n > 0
    ensures a >= 0 ==> 0 <= r < n
    ensures a < 0 ==> -n < r <= 0
    ensures a == n * JsQuotient(a, n) + r
  {
    if a >= 0 then a % n else -((-a) % n)
  }

  /** A non-zero multiple of a positive `n` is at least `n` away from zero. */
  lemma {:induction false} MultipleIsFar(n: int, k: int)
    requires n > 0
    ensures k >= 1 ==> n * k >= n
    ensures k <= -1 ==> n * k <= -n
    decreases if k < 0 then -k else k
  {
    if k > 1 {
      MultipleIsFar(n, k - 1);
      assert n * k == n * (k - 1) + n;
    } else if k < -1 {
      MultipleIsFar(n, k + 1);
      assert n * k == n * (k + 1) - n;
    }
  }

  /** The sign, the bound and the division identity single out one value: any `r` meeting them
      with some quotient is the remainder. */
  lemma JsRemainderUnique(a: int, n: int, q: int, r: int)
    requires n > 0
    requires a >= 0 ==> 0 <= r < n
    requires a < 0 ==> -n < r <= 0
    requires a == n * q + r
    ensures r == JsRemainder(a, n)
  {
    var s, m := JsRemainder(a, n), JsQuotient(a, n);
    assert n * (q - m) == s - r;
    MultipleIsFar(n, q - m);
  }

  /** Minutes (rounded down) and seconds of a duration, the seconds padded with '0' below 10. */
  function FormatGameDuration(d: int): (r: string)
    ensures d >= 0 ==> |r| >= 4 && r[|r| - 3] == ':' && AllDigits(r[|r| - 2..])
  {
    var minutes := d / 60;
    var seconds := JsRemainder(d, 60);
    IntToString(minutes) + ":" + PadSeconds(seconds)
  }

  /** The seconds field: a '0' is put in front of a value below 10. */
  function PadSeconds(seconds: int): string {
    if seconds < 10 then "0" + IntToString(seconds) else IntToString(seconds)
  }

  /** For a non-negative duration both fields are plain decimal: the minutes and the seconds
      below 60, padded. */
  lemma {:induction false} FormatOfNonNegative(d: int)
    requires d >= 0
    ensures FormatGameDuration(d) == NatToString(d / 60) + ":" + PadSeconds(d % 60)
  {
  }

  /** Reads `m:ss` back into seconds: at least one minute digit, a colon, two second digits
      below 60. */
  function ParseDuration(s: string): (r: Option<int>)
  {
    if |s| >= 4 && s[|s| - 3] == ':' && AllDigits(s[..|s| - 3]) && AllDigits(s[|s| - 2..]) then
      var seconds := ParseDigits(s[|s| - 2..]);
      if seconds < 60 then Some(ParseDigits(s[..|s| - 3]) * 60 + seconds) else None
    else None
  }

  /** The padded seconds field of a duration: two digits reading back as the seconds. */
  lemma {:induction false} SecondsField(seconds: nat)
    requires seconds < 60
    ensures var t := PadSeconds(seconds);
      |t| == 2 && AllDigits(t) && ParseDigits(t) == seconds
  {
    ParseDigitsOfNatToString(seconds);
    if seconds < 10 {
      ParseDigitsLeadingZero(NatToString(seconds));
    }
  }

  /** Parsing `m:ss` built from two digit strings gives minutes * 60 + seconds. */
  lemma {:induction false} ParseDurationOf(m: string, sec: string)
    requires |m| >= 1 && AllDigits(m) && |sec| == 2 && AllDigits(sec) && ParseDigits(sec) < 60
    ensures ParseDuration(m + ":" + sec) == Some(ParseDigits(m) * 60 + ParseDigits(sec))
  {
    var r := m + ":" + sec;
    SlicesOfConcat(m, ":", sec);
    assert r[..|r| - 3] == m;
    assert r[|r| - 2..] == sec;
  }

  /** For every non-negative duration the text is `m:ss` with m * 60 + ss == d. */
  lemma {:induction false} DurationRoundTrip(d: int)
    requires d >= 0
    ensures ParseDuration(FormatGameDuration(d)) == Some(d)
  {
    FormatOfNonNegative(d);
    FieldsRoundTrip(d / 60, d % 60);
  }

  /** The two fields of `m:ss`, rendered as the formatter does, read back as minutes and
      seconds. */
  lemma {:induction false} FieldsRoundTrip(minutes: nat, seconds: nat)
    requires seconds < 60
    ensures ParseDuration(NatToString(minutes) + ":" + PadSeconds(seconds)) == Some(minutes * 60 + seconds)
  {
    SecondsField(seconds);
    ParseDigitsOfNatToString(minutes);
    ParseDurationOf(NatToString(minutes), PadSeconds(seconds));
  }

  /** A negative duration is printed as JavaScript computes it, unpadded sign and all. */
  lemma NegativeDurationText()
    ensures FormatGameDuration(-61) == "-2:0-1"
  {
    assert NatToString(2) == "2";
    assert NatToString(1) == "1";
  }

  /** The LP line's sign: '-' for a defeat, '+' for a victory, nothing otherwise. */
  function LpPrefix(result: GameResult): (p: string)
    ensures p == "-" <==> result == Defeat
    ensures p == "+" <==> result == Victory
    ensures p == "" <==> result == Remake
  {
    match result
    case Defeat => "-"
    case Victory => "+"
    case Remake => ""
  }

  function Abs(x: int): nat {
    if x < 0 then -x else x
  }

  /** The bold LP line: the result's sign followed by the magnitude of the delta. */
  function LpDiffLine(lpDiff: int, result: GameResult): string {
    "**" + LpPrefix(result) + NatToString(Abs(lpDiff)) + " LP**"
  }

  /** Reads an LP line back into its sign and magnitude. */
  function DecodeLpLine(s: string): Option<(string, nat)> {
    if |s| >= 8 && s[..2] == "**" && s[|s| - 5..] == " LP**" then
      var m := s[2..|s| - 5];
      if |m| >= 2 && (m[0] == '-' || m[0] == '+') && AllDigits(m[1..]) then
        Some(([m[0]], ParseDigits(m[1..])))
      else if |m| >= 1 && AllDigits(m) then Some(("", ParseDigits(m)))
      else None
    else None
  }

  /** Decoding an LP line built from a sign and a digit string gives both back. */
  lemma {:induction false} DecodeLpLineOf(p: string, n: string)
    requires p == "-" || p == "+" || p == ""
    requires |n| >= 1 && AllDigits(n)
    ensures DecodeLpLine("**" + p + n + " LP**") == Some((p, ParseDigits(n)))
  {
    var s := "**" + p + n + " LP**";
    assert s == "**" + (p + n) + " LP**";
    SlicesOfConcat("**", p + n, " LP**");
    var m := s[2..|s| - 5];
    assert m == p + n;
    if p != "" {
      assert m[1..] == n;
      assert [m[0]] == p;
    } else {
      assert m == n;
      assert IsDigit(m[0]);
    }
  }

  /** The LP line carries exactly the result's sign and the delta's magnitude, whatever the
      sign of the delta itself. */
  lemma LpLineRoundTrip(lpDiff: int, result: GameResult)
    ensures DecodeLpLine(LpDiffLine(lpDiff, result)) == Some((LpPrefix(result), Abs(lpDiff)))
  {
    DecodeLpLineOf(LpPrefix(result), NatToString(Abs(lpDiff)));
    ParseDigitsOfNatToString(Abs(lpDiff));
  }

  /** The value an LP line announces: its magnitude, negated under a '-' sign. */
  function SignedValue(decoded: Option<(string, nat)>): Option<int> {
    match decoded
    case None => None
    case Some((sign, magnitude)) => Some(if sign == "-" then 0 - magnitude as int else magnitude)
  }

  /** The LP line announces the true delta exactly when the result's sign agrees with it. */
  lemma LpLineAnnouncesDelta(lpDiff: int, result: GameResult)
    ensures SignedValue(DecodeLpLine(LpDiffLine(lpDiff, result))) == Some(lpDiff) <==>
              (result == Defeat && lpDiff <= 0) || (result != Defeat && lpDiff >= 0)
  {
    LpLineRoundTrip(lpDiff, result);
  }
}
