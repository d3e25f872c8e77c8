/** The multi-bet splitter (`parse_multiple_bets`): the slip text is cut
    before every bet marker, each section is parsed as a single bet, settled
    return-first, and the sections' profits are summed into a slip summary. */
module MultiBetParser {
  import opened Wrappers
  import opened Text
  import opened Money
  import opened CommonRegex

  // ---------------------------------------------------------------------
  // Splitting. The marker is `Same\s+Game\s+Multi\s*@|Multi\s*@|Bet\s*[0-9]`,
  // case-insensitive, used as a lookahead: a section starts at every
  // position where the rest of the text begins with a marker.

  /** `multi\s*@` at the start of a lower-cased text. */
  predicate MultiAt(l: string) {
    StartsWith(l, "multi") && var r := TrimStart(l[5..]); |r| > 0 && r[0] == '@'
  }

  /** `same\s+game\s+multi\s*@` at the start of a lower-cased text. */
  predicate SameGameMultiAt(l: string) {
    StartsWith(l, "same") && |l| > 4 && IsSpace(l[4]) &&
    var r := TrimStart(l[4..]);
    StartsWith(r, "game") && |r| > 4 && IsSpace(r[4]) && MultiAt(TrimStart(r[4..]))
  }

  /** `bet\s*[0-9]` at the start of a lower-cased text. */
  predicate BetAt(l: string) {
    StartsWith(l, "bet") && var r := TrimStart(l[3..]); |r| > 0 && IsDigit(r[0])
  }

  /** The text begins with a bet marker, in any letter case. */
  predicate MarkerStart(t: string) {
    var l := Lower(t);
    SameGameMultiAt(l) || MultiAt(l) || BetAt(l)
  }

  /** The next cut after position `i`: the first later position where the
      cut predicate `m` holds of the rest of the text, or the end of the text. */
  function NextCut(s: string, i: nat, m: string -> bool): (j: nat)
    requires i < |s|
    ensures i < j <= |s|
    ensures j < |s| ==> m(s[j..])
    ensures forall q :: i < q < j ==> !m(s[q..])
    decreases |s| - i
  {
    if i + 1 == |s| || m(s[i + 1..]) then i + 1 else NextCut(s, i + 1, m)
  }

  /** The sections of `s[i..]`, each running up to the next cut. */
  function PiecesFrom(s: string, i: nat, m: string -> bool): seq<string>
    requires i <= |s|
    decreases |s| - i
  {
    if i == |s| then [] else [s[i..NextCut(s, i, m)]] + PiecesFrom(s, NextCut(s, i, m), m)
  }

  /** `re.split` on a zero-width lookahead `m`: a cut before every position
      where `m` holds, where a cut at position 0 yields a leading empty
      section and "" splits into [""]. */
  function SplitOn(s: string, m: string -> bool): seq<string> {
    if |s| == 0 then [""]
    else (if m(s) then [""] else []) + PiecesFrom(s, 0, m)
  }

  /** `re.split(marker_lookahead, text, flags=re.IGNORECASE)` */
  function Split(s: string): seq<string> {
    SplitOn(s, MarkerStart)
  }

  function Concat(ss: seq<string>): string
    decreases |ss|
  {
    if |ss| == 0 then "" else ss[0] + Concat(ss[1..])
  }

  /** No cut falls strictly inside section k (the lookahead may read on into
      the following sections). */
  predicate NoInnerCut(ss: seq<string>, k: nat, m: string -> bool)
    requires k < |ss|
  {
    forall q :: 0 < q < |ss[k]| ==> !m(ss[k][q..] + Concat(ss[k + 1..]))
  }

  /** The sections of `s[i..]` are non-empty, put back together give
      `s[i..]`, each after the first starts at a cut, and no cut falls
      strictly inside a section. */
  lemma {:induction false} PiecesFromCuts(s: string, i: nat, m: string -> bool)
    requires i <= |s|
    ensures Concat(PiecesFrom(s, i, m)) == s[i..]
    ensures forall k :: 0 <= k < |PiecesFrom(s, i, m)| ==> |PiecesFrom(s, i, m)[k]| > 0
    ensures forall k :: 1 <= k < |PiecesFrom(s, i, m)| ==> m(Concat(PiecesFrom(s, i, m)[k..]))
    ensures forall k :: 0 <= k < |PiecesFrom(s, i, m)| ==> NoInnerCut(PiecesFrom(s, i, m), k, m)
    decreases |s| - i
  {
    if i < |s| {
      var j := NextCut(s, i, m);
      var p := PiecesFrom(s, i, m);
      var rest := PiecesFrom(s, j, m);
      assert p == [s[i..j]] + rest;
      PiecesFromCuts(s, j, m);
      assert p[1..] == rest;
      assert Concat(p) == s[i..] by {
        assert Concat(p) == s[i..j] + s[j..];
        assert s[i..j] + s[j..] == s[i..];
      }
      assert forall k :: 1 <= k < |p| ==> m(Concat(p[k..])) by {
        forall k | 1 <= k < |p|
          ensures m(Concat(p[k..]))
        {
          assert p[k..] == rest[k - 1..];
          if k == 1 {
            assert rest[0..] == rest;
          }
        }
      }
      assert forall k :: 0 <= k < |p| ==> NoInnerCut(p, k, m) by {
        forall k | 0 <= k < |p|
          ensures NoInnerCut(p, k, m)
        {
          if k == 0 {
            forall q | 0 < q < |p[0]|
              ensures !m(p[0][q..] + Concat(p[1..]))
            {
              assert p[0][q..] + Concat(p[1..]) == s[i + q..];
            }
          } else {
            assert p[k] == rest[k - 1] && p[k + 1..] == rest[k..];
            assert NoInnerCut(rest, k - 1, m);
          }
        }
      }
    }
  }

  /** The split loses nothing and cuts exactly where `m` holds; only the
      first section can be empty, and it is empty exactly when the text is
      empty or `m` holds of the whole text. */
  lemma SplitOnCuts(s: string, m: string -> bool)
    ensures |SplitOn(s, m)| >= 1 && Concat(SplitOn(s, m)) == s
    ensures forall k :: 1 <= k < |SplitOn(s, m)| ==> |SplitOn(s, m)[k]| > 0 && m(Concat(SplitOn(s, m)[k..]))
    ensures forall k :: 0 <= k < |SplitOn(s, m)| ==> NoInnerCut(SplitOn(s, m), k, m)
    ensures SplitOn(s, m)[0] == "" <==> |s| == 0 || m(s)
  {
    if |s| > 0 {
      var p := PiecesFrom(s, 0, m);
      PiecesFromCuts(s, 0, m);
      assert s[0..] == s;
      var sp := SplitOn(s, m);
      if m(s) {
        assert sp == [""] + p && sp[1..] == p;
        forall k | 1 <= k < |sp|
          ensures |sp[k]| > 0 && m(Concat(sp[k..]))
        {
          assert sp[k] == p[k - 1] && sp[k..] == p[k - 1..];
          if k == 1 { assert p[0..] == p; }
        }
        forall k | 0 <= k < |sp|
          ensures NoInnerCut(sp, k, m)
        {
          if k > 0 {
            assert sp[k] == p[k - 1] && sp[k + 1..] == p[k..];
            assert NoInnerCut(p, k - 1, m);
          }
        }
      } else {
        assert sp == p;
        assert p[0] == s[0..NextCut(s, 0, m)];
      }
    }
  }

  /** The marker split loses nothing, every section after the first begins
      with a bet marker, no marker begins inside a section, and a leading
      empty section appears exactly when the slip starts with a marker. */
  lemma SplitCuts(s: string)
    ensures |Split(s)| >= 1 && Concat(Split(s)) == s
    ensures forall k :: 1 <= k < |Split(s)| ==> |Split(s)[k]| > 0 && MarkerStart(Concat(Split(s)[k..]))
    ensures forall k :: 0 <= k < |Split(s)| ==> NoInnerCut(Split(s), k, MarkerStart)
    ensures Split(s)[0] == "" <==> |s| == 0 || MarkerStart(s)
  {
    SplitOnCuts(s, MarkerStart);
  }

  // ---------------------------------------------------------------------
  // Settling one section

  /** `failed_legs` and the unrounded `bet_profit` of one section. */
  datatype Settlement = Settlement(failedLegs: nat, profit: real)

  /** The legs the section is assumed to have lost when it has no return:
      two of a multi, the single leg otherwise. */
  function LostLegs(legs: nat): (n: nat)
    ensures n == 1 || n == 2
  {
    if legs > 1 then 2 else 1
  }

  /** The return-first classification of a positive return: a full win
      (within 2% of `stake * odds`), one failed leg (within 2% of 70% of the
      stake), a push (within 2% of the stake), else one failed leg of a
      multi. */
  function FailedLegsOnReturn(stake: real, odds: real, ret: real, legs: nat): (n: nat)
    ensures n <= 1
  {
    var tolerance := 0.02 * stake;
    var fullWin := if odds != 0.0 then stake * odds else 0.0;
    if odds != 0.0 && Abs(ret - fullWin) <= tolerance then 0
    else if Abs(ret - 0.7 * stake) <= tolerance then 1
    else if Abs(ret - stake) <= tolerance then 0
    else if legs > 1 then 1
    else 0
  }

  /** The profit of a full win without a return to go by. */
  function FullWinProfit(stake: real, odds: real): real {
    stake * (odds - 1.0)
  }

  /** The settlement cascade exactly as written: with no return, the test
      `result_status == "lost" or actual_return == 0` comes first, and as the
      return is never negative it always holds, so the "won" branch after it
      can never be taken. */
  function SettleAsWritten(stake: real, odds: real, ret: real, legs: nat, status: Option<string>): Settlement {
    if ret > 0.0 then Settlement(FailedLegsOnReturn(stake, odds, ret, legs), ret - stake)
    else if status == Some("lost") || ret == 0.0 then Settlement(LostLegs(legs), -stake)
    else if status == Some("won") && odds != 0.0 && odds > 0.0 then Settlement(0, FullWinProfit(stake, odds))
    else Settlement(LostLegs(legs), -stake)
  }

  /** The settlement cascade as its comment intends: without a return, a
      "won" status with positive odds is a full win. */
  function Settle(stake: real, odds: real, ret: real, legs: nat, status: Option<string>): Settlement {
    if ret > 0.0 then Settlement(FailedLegsOnReturn(stake, odds, ret, legs), ret - stake)
    else if status == Some("lost") then Settlement(LostLegs(legs), -stake)
    else if status == Some("won") && odds > 0.0 then Settlement(0, FullWinProfit(stake, odds))
    else Settlement(LostLegs(legs), -stake)
  }

  /** As written, a section without a return is a loss of the stake whatever
      its status: a "won" 3.50 bet of 10 with no "+$" amount loses 10. */
  lemma SettleAsWrittenIgnoresWon(stake: real, odds: real, legs: nat, status: Option<string>)
    ensures SettleAsWritten(stake, odds, 0.0, legs, status) == Settlement(LostLegs(legs), -stake)
    ensures SettleAsWritten(10.0, 3.5, 0.0, 1, Some("won")).profit == -10.0
    ensures Settle(10.0, 3.5, 0.0, 1, Some("won")).profit == 25.0
  {
  }

  /** With a positive return, the return is the source of truth: the profit
      is `return - stake` and at most one leg failed, whatever the status. */
  lemma ReturnFirst(stake: real, odds: real, ret: real, legs: nat, status: Option<string>)
    requires ret > 0.0
    ensures Settle(stake, odds, ret, legs, status) == SettleAsWritten(stake, odds, ret, legs, status)
    ensures Settle(stake, odds, ret, legs, status).profit == ret - stake
    ensures Settle(stake, odds, ret, legs, status).failedLegs <= 1
    ensures Settle(stake, odds, ret, legs, status) == Settle(stake, odds, ret, legs, None)
  {
  }

  /** A return of exactly `stake * odds` is a full win, and one of exactly the
      stake (at odds not within 2% of 1) a push: no leg failed either way. */
  lemma FullWinAndPush(stake: real, odds: real, legs: nat, status: Option<string>)
    requires stake > 0.0 && odds > 0.0
    ensures Settle(stake, odds, stake * odds, legs, status) == Settlement(0, stake * odds - stake)
    ensures Settle(stake, odds, 0.7 * stake, legs, status).profit == -0.3 * stake
    ensures Abs(stake - stake * odds) > 0.02 * stake && Abs(stake - 0.7 * stake) > 0.02 * stake ==>
              Settle(stake, odds, stake, legs, status) == Settlement(0, 0.0)
  {
  }

  /** Without a return, the stake is lost with two (multi) or one failed leg,
      unless the status says "won" at positive odds: then the bet is a full
      win with no failed leg. */
  lemma NoReturnSettlement(stake: real, odds: real, legs: nat, status: Option<string>)
    ensures status == Some("won") && odds > 0.0 ==>
              Settle(stake, odds, 0.0, legs, status) == Settlement(0, FullWinProfit(stake, odds))
    ensures !(status == Some("won") && odds > 0.0) ==>
              Settle(stake, odds, 0.0, legs, status) == Settlement(LostLegs(legs), -stake)
  {
  }

  // ---------------------------------------------------------------------
  // Sections and the slip summary

  /** One entry of `individual_bets`. */
  datatype SectionBet = SectionBet(betNumber: nat, odds: real, stake: real, totalLegs: nat, failedLegs: nat,
                                   resultStatus: string, actualReturn: real, profit: real)

  /** An accepted section: its entry and its unrounded profit. */
  datatype Evaluated = Evaluated(bet: SectionBet, rawProfit: real)

  /** `float(v) if v and str(v).strip() else 0.0`; a capture that is not a
      numeral reads as 0. */
  function NumberOrZero(g: Option<string>): real {
    if Truthy(g) && Strip(g.value) != "" then ParseFloat(g.value).GetOr(0.0) else 0.0
  }

  /** `int(legs_match.group(1)) if legs_match else 1`. */
  function LegsOf(g: Option<string>): nat {
    match g
    case Some(d) => if AllDigits(d) then DigitsValue(d) else 1
    case None => 1
  }

  /** `result_status or "unknown"` */
  function StatusLabel(s: Option<string>): string {
    if Truthy(s) then s.value else "unknown"
  }

  /** Section `i` settled from its parsed fields, its return and its legs,
      by the cascade as written; `None` when it has no odds. */
  function SectionOf(parsed: CommonFields, ret: real, legs: nat, i: nat): Option<Evaluated> {
    if !Truthy(parsed.odds) then None
    else
      var stake := NumberOrZero(parsed.stakeOcr);
      var odds := NumberOrZero(parsed.odds);
      var st := SettleAsWritten(stake, odds, ret, legs, parsed.resultStatus);
      Some(Evaluated(SectionBet(i + 1, odds, stake, legs, st.failedLegs, StatusLabel(parsed.resultStatus),
                                ret, Round2(st.profit)), st.profit))
  }

  /** Section `i` parsed and settled; `None` when it is blank or has no odds.
      The return ("+$amount") and the legs are searched for in the section as
      it stands, the other fields through `parse_common`. */
  function EvalSection(e: Engine, section: string, i: nat): Option<Evaluated> {
    if Strip(section) == "" then None
    else SectionOf(CommonSpec(e, section), Amount(Capture(e, PlusReturn, section, 1)),
                   LegsOf(Capture(e, LegCount, section, 1)), i)
  }

  /** A section evaluator: engine, section text and index to an entry, if
      accepted. */
  type Evaluator = (Engine, string, nat) -> Option<Evaluated>

  /** The entry, if any, as a list of zero or one entries. */
  function Listed(r: Option<Evaluated>): seq<Evaluated> {
    match r
    case Some(v) => [v]
    case None => []
  }

  /** The sections `ev` accepts, in order; section k has index k. */
  function AcceptedBy(ev: Evaluator, e: Engine, sections: seq<string>): seq<Evaluated>
    decreases |sections|
  {
    if |sections| == 0 then []
    else
      var n := |sections| - 1;
      AcceptedBy(ev, e, sections[..n]) + Listed(ev(e, sections[n], n))
  }

  /** The sections of the slip that become bets. */
  function Accepted(e: Engine, sections: seq<string>): seq<Evaluated> {
    AcceptedBy(EvalSection, e, sections)
  }

  /** Left-to-right sum of `f` over the accepted sections. */
  function SumBy(acc: seq<Evaluated>, f: Evaluated -> real): real
    decreases |acc|
  {
    if |acc| == 0 then 0.0 else SumBy(acc[..|acc| - 1], f) + f(acc[|acc| - 1])
  }

  lemma SumByAppend(acc: seq<Evaluated>, x: Evaluated, f: Evaluated -> real)
    ensures SumBy(acc + [x], f) == SumBy(acc, f) + f(x)
  {
    assert (acc + [x])[..|acc|] == acc;
  }

  function StakeOf(v: Evaluated): real { v.bet.stake }
  function ReturnOf(v: Evaluated): real { v.bet.actualReturn }
  function RawProfitOf(v: Evaluated): real { v.rawProfit }

  /** "won", "lost" or "break_even" by the sign of the unrounded net profit. */
  function Overall(net: real): string {
    if net > 0.0 then "won" else if net < 0.0 then "lost" else "break_even"
  }

  /** The map `parse_multiple_bets` returns (`stake_ocr` holds the number
      whose `str` the source stores). */
  datatype MultiSummary = MultiSummary(
    totalBets: nat,
    individualBets: seq<SectionBet>,
    totalStakes: real,
    totalReturns: real,
    netProfit: real,
    overallResult: string,
    odds: Option<real>,
    stakeOcr: Option<real>,
    resultStatus: string)

  function BetsOf(acc: seq<Evaluated>): seq<SectionBet> {
    seq(|acc|, k requires 0 <= k < |acc| => acc[k].bet)
  }

  lemma BetsOfAppend(acc: seq<Evaluated>, v: Evaluated)
    ensures BetsOf(acc + [v]) == BetsOf(acc) + [v.bet]
  {
  }

  /** The summary of a list of accepted sections. */
  function Summarize(acc: seq<Evaluated>): MultiSummary {
    var stakes := SumBy(acc, StakeOf);
    var net := SumBy(acc, RawProfitOf);
    MultiSummary(|acc|, BetsOf(acc), stakes, SumBy(acc, ReturnOf),
                 Round2(net), Overall(net), if |acc| > 0 then Some(acc[0].bet.odds) else None,
                 if stakes > 0.0 then Some(stakes) else None, Overall(net))
  }

  /** Specification of `parse_multiple_bets(text)`. */
  function MultiSpec(e: Engine, text: string): MultiSummary {
    Summarize(Accepted(e, Split(text)))
  }

  /** One pass of the loop of `parse_multiple_bets` over section `i`: the
      entry it appends to the accepted list, `None` where it skips the
      section. */
  method ParseSection(e: Engine, sections: seq<string>, i: nat) returns (r: Option<Evaluated>)
    requires i < |sections|
    ensures Accepted(e, sections[..i + 1]) == Accepted(e, sections[..i]) + Listed(r)
  {
    AcceptedStep(EvalSection, e, sections, i);
    var section := sections[i];
    if Strip(section) == "" {
      return None;
    }
    var parsed := ParseCommon(e, section);
    var returnMatch := e(PlusReturn, section);
    var actualReturn := if returnMatch.Some? then Amount(Group(returnMatch.value, 1)) else 0.0;
    var legsMatch := e(LegCount, section);
    var totalLegs := if legsMatch.Some? then LegsOf(Group(legsMatch.value, 1)) else 1;
    r := SettleSection(parsed, actualReturn, totalLegs, i);
  }

  /** The rest of one pass: skip a section without odds, otherwise read the
      stake and odds and settle the section return-first. */
  method SettleSection(parsed: CommonFields, actualReturn: real, totalLegs: nat, i: nat) returns (r: Option<Evaluated>)
    ensures r == SectionOf(parsed, actualReturn, totalLegs, i)
  {
    if !Truthy(parsed.odds) {
      return None;
    }
    var stake := NumberOrZero(parsed.stakeOcr);
    var odds := NumberOrZero(parsed.odds);
    var resultStatus := parsed.resultStatus;

    var failedLegs: nat;
    var betProfit: real;
    if actualReturn > 0.0 {
      betProfit := actualReturn - stake;
      failedLegs := FailedLegsOnReturn(stake, odds, actualReturn, totalLegs);
    } else if resultStatus == Some("lost") || actualReturn == 0.0 {
      failedLegs := LostLegs(totalLegs);
      betProfit := -stake;
    } else if resultStatus == Some("won") && odds != 0.0 && odds > 0.0 {
      failedLegs := 0;
      betProfit := FullWinProfit(stake, odds);
    } else {
      failedLegs := LostLegs(totalLegs);
      betProfit := -stake;
    }
    assert Settlement(failedLegs, betProfit) == SettleAsWritten(stake, odds, actualReturn, totalLegs, resultStatus);

    var bet := SectionBet(i + 1, odds, stake, totalLegs, failedLegs, StatusLabel(resultStatus),
                          actualReturn, Round2(betProfit));
    r := Some(Evaluated(bet, betProfit));
  }

  /** One more section extends the accepted list by what `ev` makes of it. */
  lemma AcceptedStep(ev: Evaluator, e: Engine, sections: seq<string>, i: nat)
    requires i < |sections|
    ensures AcceptedBy(ev, e, sections[..i + 1]) == AcceptedBy(ev, e, sections[..i]) + Listed(ev(e, sections[i], i))
  {
    assert sections[..i + 1][..i] == sections[..i];
  }

  /** `parse_multiple_bets(text)`: split the slip, run the section loop,
      and summarise. */
  method ParseMultipleBets(e: Engine, text: string) returns (r: MultiSummary)
    ensures r == MultiSpec(e, text)
  {
    var sections := Split(text);
    var bets, totalStakes, totalReturns, netProfit := ScanSections(e, sections);
    r := MultiSummary(|bets|, bets, totalStakes, totalReturns, Round2(netProfit),
                      if netProfit > 0.0 then "won" else if netProfit < 0.0 then "lost" else "break_even",
                      if |bets| > 0 then Some(bets[0].odds) else None,
                      if totalStakes > 0.0 then Some(totalStakes) else None,
                      if netProfit > 0.0 then "won" else if netProfit < 0.0 then "lost" else "break_even");
  }

  /** The loop of `parse_multiple_bets`: the entries of the accepted
      sections, and the running totals of stakes, returns and unrounded
      profits. */
  method ScanSections(e: Engine, sections: seq<string>)
    returns (bets: seq<SectionBet>, totalStakes: real, totalReturns: real, netProfit: real)
    ensures bets == BetsOf(Accepted(e, sections))
    ensures totalStakes == SumBy(Accepted(e, sections), StakeOf)
    ensures totalReturns == SumBy(Accepted(e, sections), ReturnOf)
    ensures netProfit == SumBy(Accepted(e, sections), RawProfitOf)
  {
    bets := [];
    ghost var acc: seq<Evaluated> := [];
    totalStakes := 0.0;
    totalReturns := 0.0;
    netProfit := 0.0;

    for i := 0 to |sections|
      invariant acc == Accepted(e, sections[..i])
      invariant bets == BetsOf(acc)
      invariant totalStakes == SumBy(acc, StakeOf)
      invariant totalReturns == SumBy(acc, ReturnOf)
      invariant netProfit == SumBy(acc, RawProfitOf)
    {
      var parsed := ParseSection(e, sections, i);
      acc, bets, totalStakes, totalReturns, netProfit := AddSection(acc, bets, totalStakes, totalReturns, netProfit, parsed);
    }
    assert sections[..|sections|] == sections;
  }

  /** The loop body's bookkeeping: an accepted section's entry is appended
      and its stake, return and unrounded profit added to the totals. */
  method AddSection(ghost acc: seq<Evaluated>, bets: seq<SectionBet>, totalStakes: real, totalReturns: real,
                    netProfit: real, parsed: Option<Evaluated>)
    returns (ghost acc': seq<Evaluated>, bets': seq<SectionBet>, totalStakes': real, totalReturns': real, netProfit': real)
    requires bets == BetsOf(acc) && totalStakes == SumBy(acc, StakeOf)
    requires totalReturns == SumBy(acc, ReturnOf) && netProfit == SumBy(acc, RawProfitOf)
    ensures acc' == acc + Listed(parsed)
    ensures bets' == BetsOf(acc') && totalStakes' == SumBy(acc', StakeOf)
    ensures totalReturns' == SumBy(acc', ReturnOf) && netProfit' == SumBy(acc', RawProfitOf)
  {
    acc', bets', totalStakes', totalReturns', netProfit' := acc, bets, totalStakes, totalReturns, netProfit;
    if parsed.Some? {
      var v := parsed.value;
      SumByAppend(acc, v, StakeOf);
      SumByAppend(acc, v, ReturnOf);
      SumByAppend(acc, v, RawProfitOf);
      BetsOfAppend(acc, v);
      acc' := acc + [v];
      bets' := bets + [v.bet];
      totalStakes' := totalStakes + v.bet.stake;
      totalReturns' := totalReturns + v.bet.actualReturn;
      netProfit' := netProfit + v.rawProfit;
    } else {
      assert acc + Listed(parsed) == acc;
    }
  }

  /** An accepted section is non-blank, has odds, is numbered its index plus
      one, has a non-negative return, and reports its own profit rounded to
      cents; every non-blank section with odds is accepted. */
  lemma EvalSectionAccepts(e: Engine, section: string, i: nat)
    ensures EvalSection(e, section, i).Some? ==>
              Strip(section) != "" && Truthy(CommonSpec(e, section).odds) &&
              EvalSection(e, section, i).value.bet.betNumber == i + 1 &&
              EvalSection(e, section, i).value.bet.actualReturn >= 0.0 &&
              EvalSection(e, section, i).value.bet.profit == Round2(EvalSection(e, section, i).value.rawProfit)
    ensures Strip(section) != "" && Truthy(CommonSpec(e, section).odds) ==> EvalSection(e, section, i).Some?
  {
  }

  /** `ev` numbers every section it accepts by its index plus one. */
  ghost predicate Numbers(ev: Evaluator, e: Engine) {
    forall s: string, i: nat :: ev(e, s, i).Some? ==> ev(e, s, i).value.bet.betNumber == i + 1
  }

  /** Accepted sections keep their order: each entry is what `ev` made of the
      section its bet number names, and bet numbers strictly increase and
      never exceed the number of sections. */
  lemma {:induction false} AcceptedOrdered(ev: Evaluator, e: Engine, sections: seq<string>)
    requires Numbers(ev, e)
    ensures forall k :: 0 <= k < |AcceptedBy(ev, e, sections)| ==>
              1 <= AcceptedBy(ev, e, sections)[k].bet.betNumber <= |sections| &&
              ev(e, sections[AcceptedBy(ev, e, sections)[k].bet.betNumber - 1],
                 AcceptedBy(ev, e, sections)[k].bet.betNumber - 1) == Some(AcceptedBy(ev, e, sections)[k])
    ensures forall j, k :: 0 <= j < k < |AcceptedBy(ev, e, sections)| ==>
              AcceptedBy(ev, e, sections)[j].bet.betNumber < AcceptedBy(ev, e, sections)[k].bet.betNumber
    decreases |sections|
  {
    if |sections| > 0 {
      var n := |sections| - 1;
      var pre := sections[..n];
      AcceptedOrdered(ev, e, pre);
      var a := AcceptedBy(ev, e, pre);
      var all := AcceptedBy(ev, e, sections);
      forall k | 0 <= k < |a|
        ensures a[k].bet.betNumber <= n
        ensures ev(e, sections[a[k].bet.betNumber - 1], a[k].bet.betNumber - 1) == Some(a[k])
      {
        assert pre[a[k].bet.betNumber - 1] == sections[a[k].bet.betNumber - 1];
      }
      match ev(e, sections[n], n)
      case None => {
        assert all == a;
      }
      case Some(v) => {
        assert all == a + [v];
        assert v.bet.betNumber == n + 1;
      }
    }
  }

  /** Nothing is accepted exactly when `ev` rejects every section. */
  lemma {:induction false} AcceptedEmptyIff(ev: Evaluator, e: Engine, sections: seq<string>)
    ensures |AcceptedBy(ev, e, sections)| == 0 <==> forall i :: 0 <= i < |sections| ==> ev(e, sections[i], i).None?
    decreases |sections|
  {
    if |sections| > 0 {
      var n := |sections| - 1;
      var pre := sections[..n];
      AcceptedEmptyIff(ev, e, pre);
      assert forall i :: 0 <= i < n ==> pre[i] == sections[i];
    }
  }

  /** Every entry `ev` accepts satisfies `P`, so every accepted entry does. */
  lemma {:induction false} AcceptedAll(ev: Evaluator, e: Engine, sections: seq<string>, P: Evaluated -> bool)
    requires forall s: string, i: nat :: ev(e, s, i).Some? ==> P(ev(e, s, i).value)
    ensures forall k :: 0 <= k < |AcceptedBy(ev, e, sections)| ==> P(AcceptedBy(ev, e, sections)[k])
    decreases |sections|
  {
    if |sections| > 0 {
      AcceptedAll(ev, e, sections[..|sections| - 1], P);
    }
  }

  /** Bets of a slip are numbered by their sections, in increasing order. */
  lemma SlipBetsOrdered(e: Engine, text: string)
    ensures var bets := MultiSpec(e, text).individualBets;
            forall j, k :: 0 <= j < k < |bets| ==> 1 <= bets[j].betNumber < bets[k].betNumber <= |Split(text)|
  {
    forall s: string, i: nat ensures EvalSection(e, s, i).Some? ==> EvalSection(e, s, i).value.bet.betNumber == i + 1 {
      EvalSectionAccepts(e, s, i);
    }
    AcceptedOrdered(EvalSection, e, Split(text));
  }

  /** A slip none of whose sections has odds summarises to no bets, zero
      totals, "break_even", and no odds or stake. */
  lemma NoOddsNoBets(e: Engine, text: string)
    requires forall i :: 0 <= i < |Split(text)| ==> !Truthy(CommonSpec(e, Split(text)[i]).odds)
    ensures MultiSpec(e, text) == MultiSummary(0, [], 0.0, 0.0, 0.0, "break_even", None, None, "break_even")
  {
    var secs := Split(text);
    forall i | 0 <= i < |secs| ensures EvalSection(e, secs[i], i).None? {
      EvalSectionAccepts(e, secs[i], i);
    }
    AcceptedEmptyIff(EvalSection, e, secs);
    assert Round2(0.0) == 0.0;
  }

  /** The empty slip yields no bets, zero totals and net profit, no odds,
      no stake and "break_even" as both verdicts. */
  lemma EmptySlip(e: Engine)
    ensures MultiSpec(e, "") == MultiSummary(0, [], 0.0, 0.0, 0.0, "break_even", None, None, "break_even")
  {
    assert Split("") == [""];
    assert Strip("") == "";
    assert Accepted(e, [""]) == Accepted(e, [""][..0]) + [];
    assert Round2(0.0) == 0.0;
  }

  /** The slip's verdict follows the sign of the unrounded net profit: it is
      "won" exactly when the sum is positive and "lost" exactly when it is
      negative, even where the rounded `net_profit` is 0. */
  lemma OverallFollowsNet(e: Engine, text: string)
    ensures var s := MultiSpec(e, text);
            var net := SumBy(Accepted(e, Split(text)), RawProfitOf);
            (s.overallResult == "won" <==> net > 0.0) && (s.overallResult == "lost" <==> net < 0.0) &&
            s.resultStatus == s.overallResult && s.netProfit == Round2(net) && -0.005 <= s.netProfit - net <= 0.005
  {
  }

  /** A sum of non-negative terms is non-negative. */
  lemma {:induction false} SumByNonNegative(acc: seq<Evaluated>, f: Evaluated -> real)
    requires forall k :: 0 <= k < |acc| ==> f(acc[k]) >= 0.0
    ensures SumBy(acc, f) >= 0.0
    decreases |acc|
  {
    if |acc| > 0 {
      SumByNonNegative(acc[..|acc| - 1], f);
    }
  }

  predicate HasNonNegativeReturn(v: Evaluated) { v.bet.actualReturn >= 0.0 }

  /** The slip's totals: the count is the number of entries, the total return
      is never negative, a stake is reported only when the total stake is
      positive, and the odds are those of the first entry. */
  lemma SlipTotals(e: Engine, text: string)
    ensures var s := MultiSpec(e, text);
            s.totalBets == |s.individualBets| && s.totalReturns >= 0.0 &&
            (s.stakeOcr.Some? <==> s.totalStakes > 0.0) &&
            (s.stakeOcr.Some? ==> s.stakeOcr.value == s.totalStakes) &&
            (s.totalBets > 0 ==> s.odds == Some(s.individualBets[0].odds)) &&
            (s.totalBets == 0 ==> s.odds.None?)
  {
    var secs := Split(text);
    forall s: string, i: nat ensures EvalSection(e, s, i).Some? ==> HasNonNegativeReturn(EvalSection(e, s, i).value) {
      EvalSectionAccepts(e, s, i);
    }
    AcceptedAll(EvalSection, e, secs, HasNonNegativeReturn);
    SumByNonNegative(Accepted(e, secs), ReturnOf);
  }

  /** How an entry is settled as written: with a return, its profit is the
      return less the stake; without one, the stake is lost with two (multi)
      or one failed legs. */
  predicate ReturnOrStakeLost(v: Evaluated) {
    if v.bet.actualReturn > 0.0 then v.rawProfit == v.bet.actualReturn - v.bet.stake
    else v.rawProfit == -v.bet.stake && v.bet.failedLegs == LostLegs(v.bet.totalLegs)
  }

  /** No section of a slip without a "+$" return counts as won: each entry
      either earns its return less its stake or loses its stake, whatever
      its status says. */
  lemma NoReturnSectionsLose(e: Engine, text: string)
    ensures var acc := Accepted(e, Split(text));
            forall k :: 0 <= k < |acc| ==> ReturnOrStakeLost(acc[k])
    ensures var bets := MultiSpec(e, text).individualBets;
            forall k :: 0 <= k < |bets| && bets[k].actualReturn <= 0.0 ==> bets[k].profit == Round2(-bets[k].stake)
  {
    var acc := Accepted(e, Split(text));
    AcceptedSettledAsWritten(e, Split(text));
    LostEntriesRounded(acc, MultiSpec(e, text).individualBets);
  }

  /** Every accepted section is settled as written and reports its profit
      rounded. */
  lemma AcceptedSettledAsWritten(e: Engine, sections: seq<string>)
    ensures var acc := Accepted(e, sections);
            forall k :: 0 <= k < |acc| ==> ReturnOrStakeLost(acc[k]) && HasRoundedProfit(acc[k])
  {
    forall s: string, i: nat ensures EvalSection(e, s, i).Some? ==> ReturnOrStakeLost(EvalSection(e, s, i).value) {
      if Strip(s) != "" {
        SectionSettledAsWritten(CommonSpec(e, s), Amount(Capture(e, PlusReturn, s, 1)),
                                LegsOf(Capture(e, LegCount, s, 1)), i);
      }
    }
    AcceptedAll(EvalSection, e, sections, ReturnOrStakeLost);
    forall s: string, i: nat ensures EvalSection(e, s, i).Some? ==> HasRoundedProfit(EvalSection(e, s, i).value) {
      EvalSectionAccepts(e, s, i);
    }
    AcceptedAll(EvalSection, e, sections, HasRoundedProfit);
  }

  /** Entries settled as written and reporting their profit rounded report
      `round2(-stake)` when they have no return. */
  lemma LostEntriesRounded(acc: seq<Evaluated>, bets: seq<SectionBet>)
    requires forall k :: 0 <= k < |acc| ==> ReturnOrStakeLost(acc[k]) && HasRoundedProfit(acc[k])
    requires bets == BetsOf(acc)
    ensures forall k :: 0 <= k < |bets| && bets[k].actualReturn <= 0.0 ==> bets[k].profit == Round2(-bets[k].stake)
  {
    forall k | 0 <= k < |bets| && bets[k].actualReturn <= 0.0 ensures bets[k].profit == Round2(-bets[k].stake) {
      assert bets[k] == acc[k].bet;
      assert ReturnOrStakeLost(acc[k]) && HasRoundedProfit(acc[k]);
      assert acc[k].rawProfit == -acc[k].bet.stake;
    }
  }

  /** A section with a non-negative return, settled as written, earns its
      return less its stake or loses its stake. */
  lemma SectionSettledAsWritten(parsed: CommonFields, ret: real, legs: nat, i: nat)
    requires ret >= 0.0
    ensures SectionOf(parsed, ret, legs, i).Some? ==> ReturnOrStakeLost(SectionOf(parsed, ret, legs, i).value)
  {
  }

  predicate HasRoundedProfit(v: Evaluated) { v.bet.profit == Round2(v.rawProfit) }
}
