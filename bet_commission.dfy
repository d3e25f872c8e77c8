/** The commission rate the upload stores and what a later edit makes of
    it. */
module BetCommission {
  import opened Wrappers
  import opened Text
  import opened Money
  import opened Profit
  import opened BetUpload
  import opened BetEdit
  import opened BetFiles
  import CommonRegex
  import MultiBetParser

  /** A one-digit numeral reads as its digit. */
  lemma ParseDigit(d: nat)
    requires d < 10
    ensures ParseFloat([DigitChar(d)]) == Some(d as real)
  {
    var s := [DigitChar(d)];
    assert TrimStart(s) == s;
    assert TrimEnd(s) == s;
    assert IndexOf(s, '.') == 1;
    assert s[..1] == s;
    assert DigitsValue(s) == d by {
      assert s[..0] == [];
    }
  }

  /** A one-digit value reads as its digit. */
  lemma NumberOrNoneDigit(d: nat)
    requires d < 10
    ensures NumberOrNone(Some([DigitChar(d)])) == Ok(Some(d as real))
  {
    ParseDigit(d);
    StripEmptyIffBlank([DigitChar(d)]);
  }

  /** The parse a Betfair parser returns for a won back bet at odds "3"
      with a commission of "5" (per cent). */
  const PercentSlip := SingleParse(Some("3"), Some("won"), None, Some("5"), None)

  /** The settlement of that parse: odds 3.0, "won", no cash-out, 19.00
      profit at the 5% commission applied. */
  const PercentSettled := Settled(Some(3.0), Some("won"), None, 19.0, None)

  /** A name that is "betfair" in any letter case is Betfair's, has no
      surrounding whitespace, and finds the Betfair parser. */
  lemma BetfairKey(name: string)
    requires Lower(name) == "betfair"
    ensures IsBetfair(name) && Strip(name) == name && HasParser(name)
  {
    assert LowerChar(name[0]) == 'b' && LowerChar(name[6]) == 'r';
    StripUnpadded(name);
    assert ParserKey(name) == "betfair";
  }

  /** That parse settles as a Betfair back bet of 10.00 won at 3.0 with
      the 5% read from the slip. */
  lemma PercentSlipSettles(name: string)
    requires Lower(name) == "betfair"
    ensures SettleSingle(PercentSlip, name, 10.0, 0.05) == Ok((PercentSettled, 0.05))
  {
    NumberOrNoneDigit(3);
    NumberOrNoneDigit(5);
    assert "3" == [DigitChar(3)];
    assert "5" == [DigitChar(5)];
    assert NumberOrNone(PercentSlip.odds) == Ok(Some(3.0));
    assert NumberOrNone(PercentSlip.cashoutAmount) == Ok(None);
    assert CommissionOf(name, PercentSlip.commission, 0.05) == Ok(0.05);
    assert !IsLay(None) by { assert Lower("") == ""; }
    BackWon(name, None, Some(3.0), 10.0, None, Some(0.05));
    assert Winnings(10.0, 3.0, 0.05) == 1900 as real / 100.0;
    Round2Cents(1900);
  }

  /** On a slip with at most one bet, the choice is the single settlement. */
  lemma SettledChoice(multi: MultiBetParser.MultiSummary, single: SingleParse, bookmakerName: string, stake: real,
                      defaultCommission: real, s: Settled, comm: real)
    requires multi.totalBets <= 1
    requires SettleSingle(single, bookmakerName, stake, defaultCommission) == Ok((s, comm))
    ensures Choose(multi, single, bookmakerName, stake, defaultCommission) == Ok((s, Some(comm)))
  {
  }

  /** `upload_bet` stores the choice it made, with the rate as written. */
  lemma UploadOfChoice(e: CommonRegex.Engine, setId: int, bookmakerName: string, stake: real,
                       filename: Option<string>, userId: int, now: real, hex: string, text: string,
                       parsed: SingleParse, defaultCommission: real, s: Settled, comm: Option<real>)
    requires Choose(MultiBetParser.MultiSpec(e, text), SingleOf(bookmakerName, parsed), bookmakerName, stake,
                    defaultCommission) == Ok((s, comm))
    ensures var fname := SecureFilename(if filename.None? || filename.value == "" then "unknown.png" else filename.value,
                                        now, hex);
            var single := SingleOf(bookmakerName, parsed);
            UploadSpec(e, setId, bookmakerName, stake, filename, userId, now, hex, text, parsed, defaultCommission)
            == Ok(RecordOf(setId, bookmakerName, stake, userId, now, fname, text, single, s,
                           StoredCommissionAsWritten(single, HasParser(bookmakerName))))
  {
  }

  /** The record `upload_bet` stores for that parse. */
  lemma PercentSlipRecord(e: CommonRegex.Engine, setId: int, name: string, filename: Option<string>, userId: int,
                          now: real, hex: string, text: string)
    requires Lower(name) == "betfair"
    requires MultiBetParser.MultiSpec(e, text).totalBets <= 1
    ensures var fname := SecureFilename(if filename.None? || filename.value == "" then "unknown.png" else filename.value,
                                        now, hex);
            UploadSpec(e, setId, name, 10.0, filename, userId, now, hex, text, PercentSlip, 0.05)
            == Ok(RecordOf(setId, name, 10.0, userId, now, fname, text, PercentSlip, PercentSettled, Some(5.0)))
  {
    var multi := MultiBetParser.MultiSpec(e, text);
    assert HasParser(name) && SingleOf(name, PercentSlip) == PercentSlip by { BetfairKey(name); }
    assert Choose(multi, PercentSlip, name, 10.0, 0.05) == Ok((PercentSettled, Some(0.05))) by {
      PercentSlipSettles(name);
      SettledChoice(multi, PercentSlip, name, 10.0, 0.05, PercentSettled, 0.05);
    }
    assert StoredCommissionAsWritten(PercentSlip, true) == Some(5.0) by {
      ParseDigit(5);
      assert "5" == [DigitChar(5)];
    }
    UploadOfChoice(e, setId, name, 10.0, filename, userId, now, hex, text, PercentSlip, 0.05, PercentSettled, Some(0.05));
  }

  /** As written, a Betfair back bet of 10.00 uploaded with that parse, on a
      slip the multi-bet parser finds at most one bet on, settles at 19.00
      with 5% commission, and the rate stored for it is 5.0. */
  lemma CommissionPercentStoredAsWritten(e: CommonRegex.Engine, setId: int, name: string, filename: Option<string>,
                                         userId: int, now: real, hex: string, text: string)
    requires Lower(name) == "betfair"
    requires MultiBetParser.MultiSpec(e, text).totalBets <= 1
    ensures var r := UploadSpec(e, setId, name, 10.0, filename, userId, now, hex, text, PercentSlip, 0.05);
            r.Ok? && r.value.profit == 19.0 && r.value.commissionRate == Some(5.0)
  {
    PercentSlipRecord(e, setId, name, filename, userId, now, hex, text);
  }

  /** `update_bet`'s recompute of a Betfair back bet at odds 3.0, stake
      10.00, "won", with 5.0 as its rate. */
  lemma PercentRowRecomputes(name: string, row: BetRow)
    requires Lower(name) == "betfair"
    requires row.betType == Some("back") && row.oddsNumeric == Some(3.0) && row.stakeManual == 10.0
    requires row.resultStatus == Some("won") && row.cashoutAmount.None? && row.commissionRate == Some(5.0)
    ensures RecomputedProfit(name, row) == -80.0
  {
    assert !IsLay(Some("back")) by { LowerNoUpper("back"); }
    BackWon(name, Some("back"), Some(3.0), 10.0, None, Some(5.0));
    assert Winnings(10.0, 3.0, 5.0) == (-8000) as real / 100.0;
    Round2Cents(-8000);
  }

  /** The status saved again on the record stored for that parse. */
  lemma PercentRecordRecomputes(setId: int, name: string, userId: int, now: real, fname: string, text: string,
                                later: real)
    requires Lower(name) == "betfair"
    ensures var rec := RecordOf(setId, name, 10.0, userId, now, fname, text, PercentSlip, PercentSettled, Some(5.0));
            var edited := EditSpec(RowOf(rec), userId, "user", [ResultStatus(rec.resultStatus)], later);
            edited.Ok? && edited.value.profit == -80.0
  {
    var rec := RecordOf(setId, name, 10.0, userId, now, fname, text, PercentSlip, PercentSettled, Some(5.0));
    var row := RowOf(rec);
    var u := [ResultStatus(rec.resultStatus)];
    assert row.bookmaker == Some(name) by { BetfairKey(name); }
    assert TouchesProfit(u) by { assert ProfitInput(KeyOf(u[0])); }
    assert Apply(row, u) == row by { ResaveKeepsRow(row); }
    assert RecomputedProfit(name, row) == -80.0 by { PercentRowRecomputes(name, row); }
    EditOutcome(row, userId, "user", u, later);
  }

  /** Its owner saving the same status again makes `update_bet` read the
      stored 5.0 as a fraction and recompute the profit with a 500%
      commission: -80.00 instead of 19.00. */
  lemma CommissionPercentRecomputedAsWritten(e: CommonRegex.Engine, setId: int, name: string, filename: Option<string>,
                                             userId: int, now: real, hex: string, text: string, later: real)
    requires Lower(name) == "betfair"
    requires MultiBetParser.MultiSpec(e, text).totalBets <= 1
    ensures var r := UploadSpec(e, setId, name, 10.0, filename, userId, now, hex, text, PercentSlip, 0.05);
            r.Ok? &&
            var edited := EditSpec(RowOf(r.value), userId, "user", [ResultStatus(r.value.resultStatus)], later);
            edited.Ok? && edited.value.profit == -80.0
  {
    PercentSlipRecord(e, setId, name, filename, userId, now, hex, text);
    var fname := SecureFilename(if filename.None? || filename.value == "" then "unknown.png" else filename.value, now, hex);
    PercentRecordRecomputes(setId, name, userId, now, fname, text, later);
  }

  /** The commission rate stored as the fraction the profit calculation
      reads back: the commission applied on the single-bet branch, the
      parsed percentage over 100 on the multi-bet branch. */
  function StoredCommission(single: SingleParse, applied: Option<real>): Option<real> {
    match applied
    case Some(c) => Some(c)
    case None =>
      match single.commission
      case None => Some(0.0)
      case Some(s) =>
        match ParseFloat(s)
        case Some(p) => Some(p / 100.0)
        case None => None
  }

  /** `upload_bet` with the commission rate stored as a fraction. */
  function UploadCorrected(e: CommonRegex.Engine, setId: int, bookmakerName: string, stake: real,
                           filename: Option<string>, userId: int, now: real, hex: string, text: string,
                           parsed: SingleParse, defaultCommission: real): Result<BetRecord>
  {
    var fname := SecureFilename(if filename.None? || filename.value == "" then "unknown.png" else filename.value, now, hex);
    var multi := MultiBetParser.MultiSpec(e, text);
    var single := SingleOf(bookmakerName, parsed);
    match Choose(multi, single, bookmakerName, stake, defaultCommission)
    case Err(err) => Err(err)
    case Ok((s, applied)) =>
      Ok(RecordOf(setId, bookmakerName, stake, userId, now, fname, text, single, s, StoredCommission(single, applied)))
  }

  /** The corrected upload fails exactly when the upload does, and stores
      the same record but for the commission rate, which on a single-bet
      slip is the commission the settlement applied. */
  lemma CorrectedRecord(e: CommonRegex.Engine, setId: int, bookmakerName: string, stake: real,
                        filename: Option<string>, userId: int, now: real, hex: string, text: string,
                        parsed: SingleParse, defaultCommission: real)
    ensures var r := UploadSpec(e, setId, bookmakerName, stake, filename, userId, now, hex, text, parsed, defaultCommission);
            var c := UploadCorrected(e, setId, bookmakerName, stake, filename, userId, now, hex, text, parsed, defaultCommission);
            (c.Ok? <==> r.Ok?) &&
            (c.Ok? ==> c.value.(commissionRate := r.value.commissionRate) == r.value)
    ensures var c := UploadCorrected(e, setId, bookmakerName, stake, filename, userId, now, hex, text, parsed, defaultCommission);
            var single := SingleOf(bookmakerName, parsed);
            c.Ok? && MultiBetParser.MultiSpec(e, text).totalBets <= 1 ==>
              CommissionOf(bookmakerName, single.commission, defaultCommission).Ok? &&
              c.value.commissionRate == Some(CommissionOf(bookmakerName, single.commission, defaultCommission).value)
  {
    var multi := MultiBetParser.MultiSpec(e, text);
    var single := SingleOf(bookmakerName, parsed);
    if multi.totalBets <= 1 {
      ChooseSingle(multi, single, bookmakerName, stake, defaultCommission);
    }
  }

  /** With the commission stored as the fraction that was applied, a
      single-bet upload whose bookmaker name has no surrounding spaces keeps
      its profit when its owner saves the same status again. */
  lemma RecomputeReproducesUpload(e: CommonRegex.Engine, setId: int, bookmakerName: string, stake: real,
                                  filename: Option<string>, userId: int, now: real, hex: string, text: string,
                                  parsed: SingleParse, defaultCommission: real, later: real)
    requires MultiBetParser.MultiSpec(e, text).totalBets <= 1
    requires Strip(bookmakerName) == bookmakerName
    ensures var r := UploadCorrected(e, setId, bookmakerName, stake, filename, userId, now, hex, text, parsed, defaultCommission);
            r.Ok? ==>
              var edited := EditSpec(RowOf(r.value), userId, "user", [ResultStatus(r.value.resultStatus)], later);
              edited.Ok? && edited.value.profit == r.value.profit
  {
    var r := UploadCorrected(e, setId, bookmakerName, stake, filename, userId, now, hex, text, parsed, defaultCommission);
    if r.Ok? {
      var single := SingleOf(bookmakerName, parsed);
      CorrectedRecord(e, setId, bookmakerName, stake, filename, userId, now, hex, text, parsed, defaultCommission);
      UploadPath(e, setId, bookmakerName, stake, filename, userId, now, hex, text, parsed, defaultCommission);
      UploadRecordFields(e, setId, bookmakerName, stake, filename, userId, now, hex, text, parsed, defaultCommission);
      var comm := CommissionOf(bookmakerName, single.commission, defaultCommission).value;
      RecordRecompute(r.value, single.side, comm, later);
    }
  }

  /** Saving a row's own status again leaves its editable fields as they were. */
  lemma ResaveKeepsRow(row: BetRow)
    ensures Apply(row, [ResultStatus(row.resultStatus)]) == row
  {
    var u := [ResultStatus(row.resultStatus)];
    assert u[..0] == [];
  }

  /** A record whose profit is `compute_profit` of its own stored fields,
      with the bet type stored for `side` and the applied commission as its
      rate, keeps that profit when its owner saves the same status again. */
  lemma RecordRecompute(rec: BetRecord, side: Option<string>, comm: real, later: real)
    requires rec.betType == BetTypeOf(side) && rec.commissionRate == Some(comm)
    requires rec.profit == ComputeProfit(rec.bookmakerName, side, rec.oddsNumeric, rec.stakeManual,
                                         rec.resultStatus, rec.cashoutAmount, Some(comm))
    ensures var edited := EditSpec(RowOf(rec), rec.uploadedBy, "user", [ResultStatus(rec.resultStatus)], later);
            edited.Ok? && edited.value.profit == rec.profit
  {
    var row := RowOf(rec);
    var u := [ResultStatus(rec.resultStatus)];
    EditOutcome(row, rec.uploadedBy, "user", u, later);
    assert TouchesProfit(u) by { assert ProfitInput(KeyOf(u[0])); }
    ResaveKeepsRow(row);
    SingleRecompute(rec.bookmakerName, side, rec.oddsNumeric, rec.stakeManual, rec.resultStatus, rec.cashoutAmount, comm, row);
  }

  /** `bet_type or "back"` on the stored type settles as the parsed side did. */
  lemma BetTypeKeepsSide(side: Option<string>)
    ensures IsLay(Some(BetTypeOf(side))) == IsLay(side)
  {
    LowerNoUpper("back");
    LowerNoUpper("");
  }

  /** A row holding the settled odds, stake, status and cash-out, the bet
      type stored for `side` and the applied commission as its rate,
      recomputes to the profit `compute_profit` gave at upload. */
  lemma SingleRecompute(bookmakerName: string, side: Option<string>, odds: Option<real>, stake: real,
                        status: Option<string>, cashout: Option<real>, comm: real, row: BetRow)
    requires row.betType == Some(BetTypeOf(side)) && row.oddsNumeric == odds && row.stakeManual == stake
    requires row.resultStatus == status && row.cashoutAmount == cashout && row.commissionRate == Some(comm)
    ensures RecomputedProfit(bookmakerName, row) == ComputeProfit(bookmakerName, side, odds, stake, status, cashout, Some(comm))
  {
    BetTypeKeepsSide(side);
  }
}
