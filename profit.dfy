/** The profit calculator: realised profit of one settled bet, chosen by a
    first-match-wins decision list (cash-out, then Betfair lay, then back). */
module Profit {
  import opened Wrappers
  import opened Text
  import opened Money

  /** `result_status and result_status.lower().startswith("cashout")` */
  predicate IsCashoutStatus(status: Option<string>) {
    status.Some? && StartsWith(Lower(status.value), "cashout")
  }

  /** `bookmaker.lower() == "betfair"` */
  predicate IsBetfair(bookmaker: string) {
    Lower(bookmaker) == "betfair"
  }

  /** `(side or "").lower() == "lay"` */
  predicate IsLay(side: Option<string>) {
    Lower(side.GetOr("")) == "lay"
  }

  /** A Python truth test on an optional number: present and non-zero. */
  predicate Truthy(x: Option<real>) {
    x.Some? && x.value != 0.0
  }

  /** What a back bet at `odds` earns when it wins, net of `commission`. */
  function Winnings(stake: real, odds: real, commission: real): real {
    stake * (odds - 1.0) * (1.0 - commission)
  }

  /** What a layer pays out when the backed selection wins. */
  function Liability(stake: real, odds: real): real {
    stake * (odds - 1.0)
  }

  /** What a layer keeps, net of commission, when the backed selection loses. */
  function LayWinnings(stake: real, commission: real): real {
    stake * (1.0 - commission)
  }

  /** `compute_profit(bookmaker, side, odds, stake, result_status, cashout_amount, commission)` */
  function ComputeProfit(bookmaker: string, side: Option<string>, odds: Option<real>, stake: real,
                         status: Option<string>, cashout: Option<real>, commission: Option<real>): real
  {
    var c := commission.GetOr(0.0);
    if IsCashoutStatus(status) && cashout.Some? then
      Round2(cashout.value - stake)
    else if IsBetfair(bookmaker) && IsLay(side) then
      if status == Some("won") then Round2(LayWinnings(stake, c))
      else if status == Some("lost") && Truthy(odds) then Round2(-Liability(stake, odds.value))
      else 0.0
    else if status == Some("won") && Truthy(odds) then Round2(Winnings(stake, odds.value, c))
    else if status == Some("lost") then Round2(-stake)
    else 0.0
  }

  /** A cash-out settles at `cashout - stake` whatever the bookmaker, side,
      odds and commission. */
  lemma CashoutTakesPrecedence(bookmaker: string, side: Option<string>, odds: Option<real>, stake: real,
                               status: Option<string>, cashout: real, commission: Option<real>)
    requires IsCashoutStatus(status)
    ensures ComputeProfit(bookmaker, side, odds, stake, status, Some(cashout), commission)
            == ComputeProfit("", None, None, stake, status, Some(cashout), None)
            == Round2(cashout - stake)
  {
  }

  /** A winning Betfair lay keeps the backer's stake less commission. */
  lemma LayWon(bookmaker: string, side: Option<string>, odds: Option<real>, stake: real,
               cashout: Option<real>, commission: Option<real>)
    requires IsBetfair(bookmaker) && IsLay(side)
    ensures ComputeProfit(bookmaker, side, odds, stake, Some("won"), cashout, commission)
            == Round2(LayWinnings(stake, commission.GetOr(0.0)))
  {
    assert !StartsWith(Lower("won"), "cashout");
  }

  /** A losing Betfair lay pays the liability `stake * (odds - 1)`; without
      usable odds, or with any other status, a lay yields nothing. */
  lemma LayLostOrOther(bookmaker: string, side: Option<string>, odds: Option<real>, stake: real,
                       status: Option<string>, cashout: Option<real>, commission: Option<real>)
    requires IsBetfair(bookmaker) && IsLay(side)
    requires !(IsCashoutStatus(status) && cashout.Some?) && status != Some("won")
    ensures status == Some("lost") && Truthy(odds) ==>
              ComputeProfit(bookmaker, side, odds, stake, status, cashout, commission)
              == Round2(-Liability(stake, odds.value))
    ensures !(status == Some("lost") && Truthy(odds)) ==>
              ComputeProfit(bookmaker, side, odds, stake, status, cashout, commission) == 0.0
  {
  }

  /** A winning back bet earns `stake * (odds - 1)` net of commission; with
      missing or zero odds it earns nothing. */
  lemma BackWon(bookmaker: string, side: Option<string>, odds: Option<real>, stake: real,
                cashout: Option<real>, commission: Option<real>)
    requires !(IsBetfair(bookmaker) && IsLay(side))
    ensures ComputeProfit(bookmaker, side, odds, stake, Some("won"), cashout, commission)
            == if Truthy(odds) then Round2(Winnings(stake, odds.value, commission.GetOr(0.0)))
               else 0.0
  {
    assert !StartsWith(Lower("won"), "cashout");
  }

  /** A losing back bet loses the stake, whatever the odds and commission;
      for a stake in whole cents that is exactly `-stake`. */
  lemma BackLost(bookmaker: string, side: Option<string>, odds: Option<real>, stake: real,
                 cashout: Option<real>, commission: Option<real>, cents: int)
    requires !(IsBetfair(bookmaker) && IsLay(side))
    ensures ComputeProfit(bookmaker, side, odds, stake, Some("lost"), cashout, commission)
            == ComputeProfit(bookmaker, side, None, stake, Some("lost"), cashout, None)
            == Round2(-stake)
    ensures stake == cents as real / 100.0 ==>
              ComputeProfit(bookmaker, side, odds, stake, Some("lost"), cashout, commission) == -stake
  {
    assert !StartsWith(Lower("lost"), "cashout");
    if stake == cents as real / 100.0 {
      assert -stake == (-cents) as real / 100.0;
      Round2Cents(-cents);
    }
  }

  /** A missing commission is a zero commission. */
  lemma NoCommissionIsZero(bookmaker: string, side: Option<string>, odds: Option<real>, stake: real,
                           status: Option<string>, cashout: Option<real>)
    ensures ComputeProfit(bookmaker, side, odds, stake, status, cashout, None)
            == ComputeProfit(bookmaker, side, odds, stake, status, cashout, Some(0.0))
  {
  }

  /** A lay on any bookmaker other than Betfair is settled as a back bet. */
  lemma NonBetfairLayIsBack(bookmaker: string, odds: Option<real>, stake: real,
                            status: Option<string>, cashout: Option<real>, commission: Option<real>)
    requires !IsBetfair(bookmaker)
    ensures ComputeProfit(bookmaker, Some("lay"), odds, stake, status, cashout, commission)
            == ComputeProfit(bookmaker, Some("back"), odds, stake, status, cashout, commission)
  {
  }

  /** Only "won" and "lost", compared case-sensitively, and a cash-out with an
      amount produce a non-zero profit; "pending", `None`, "Won" or "cash out"
      yield 0. */
  lemma OtherStatusIsZero(bookmaker: string, side: Option<string>, odds: Option<real>, stake: real,
                          status: Option<string>, cashout: Option<real>, commission: Option<real>)
    requires status != Some("won") && status != Some("lost")
    requires !(IsCashoutStatus(status) && cashout.Some?)
    ensures ComputeProfit(bookmaker, side, odds, stake, status, cashout, commission) == 0.0
  {
  }

  /** The Betfair layer is the backer's counterparty: a lost lay costs exactly
      what the same bet, won on the back side without commission, earns. */
  lemma LayLossMirrorsBackWin(layBook: string, laySide: Option<string>, backBook: string, backSide: Option<string>,
                              odds: real, stake: real, cashout: Option<real>, commission: Option<real>)
    requires IsBetfair(layBook) && IsLay(laySide) && !(IsBetfair(backBook) && IsLay(backSide))
    requires odds != 0.0
    ensures ComputeProfit(layBook, laySide, Some(odds), stake, Some("lost"), cashout, commission)
            == -ComputeProfit(backBook, backSide, Some(odds), stake, Some("won"), None, None)
  {
    assert !IsCashoutStatus(Some("lost"));
    assert Some("lost") != Some("won");
    LayLostOrOther(layBook, laySide, Some(odds), stake, Some("lost"), cashout, commission);
    BackWon(backBook, backSide, Some(odds), stake, None, None);
    assert Winnings(stake, odds, 0.0) == Liability(stake, odds);
    Round2Neg(Liability(stake, odds));
  }
}
