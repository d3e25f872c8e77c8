/** The upload handler's decisions: the parser looked up by bookmaker
    name, the choice between the multi-bet summary and the single-bet
    parse, the commission rule and the record stored for the bet. */
module BetUpload {
  import opened Wrappers
  import opened Text
  import opened Profit
  import opened BetFiles
  import CommonRegex
  import MultiBetParser

  /** The map a per-bookmaker parser returns; every entry may be missing. */
  datatype SingleParse = SingleParse(
    odds: Option<string>,
    resultStatus: Option<string>,
    cashoutAmount: Option<string>,
    commission: Option<string>,
    side: Option<string>)

  /** `{}`, what an unknown bookmaker gets. */
  const NoParse := SingleParse(None, None, None, None, None)

  /** The key of the parser table. */
  function ParserKey(bookmakerName: string): string {
    Lower(Strip(bookmakerName))
  }

  /** The bookmakers that have a parser. */
  predicate HasParser(bookmakerName: string) {
    ParserKey(bookmakerName) in {"ladbrokes", "pointsbet", "sportsbet", "tab", "bet365", "betfair"}
  }

  /** `parser.parse(text) if parser else {}`, where `parsed` is what the
      bookmaker's parser would return. */
  function SingleOf(bookmakerName: string, parsed: SingleParse): (r: SingleParse)
    ensures HasParser(bookmakerName) ==> r == parsed
    ensures !HasParser(bookmakerName) ==> r == NoParse
  {
    if HasParser(bookmakerName) then parsed else NoParse
  }

  /** An uncaught exception inside the handler. */
  const ServerError := HttpError(500, "Internal Server Error")

  /** `float(v) if v and str(v).strip() != '' else None`; a value `float`
      rejects raises. */
  function NumberOrNone(v: Option<string>): Result<Option<real>> {
    if v.None? || v.value == "" || Strip(v.value) == "" then Ok(None)
    else match ParseFloat(v.value)
      case Some(x) => Ok(Some(x))
      case None => Err(ServerError)
  }

  /** A missing or blank value reads as `None`, a numeral as its number, and
      anything else fails the request. */
  lemma NumberOrNoneMeaning(v: Option<string>)
    ensures NumberOrNone(v) == Ok(None) <==> (v.None? || IsBlank(v.value))
    ensures NumberOrNone(v).Err? <==> (v.Some? && !IsBlank(v.value) && ParseFloat(v.value).None?)
    ensures (NumberOrNone(v).Ok? && NumberOrNone(v).value.Some?) <==>
              (v.Some? && !IsBlank(v.value) && ParseFloat(v.value).Some?)
    ensures NumberOrNone(v).Ok? && NumberOrNone(v).value.Some? ==>
              NumberOrNone(v).value == ParseFloat(v.value)
  {
    if v.Some? {
      StripEmptyIffBlank(v.value);
    }
  }

  /** The commission applied to a single bet: the parsed percentage over 100,
      else `defaultCommission` when the name (not stripped) lower-cases to
      "betfair", else 0. */
  function CommissionOf(bookmakerName: string, commission: Option<string>, defaultCommission: real): Result<real> {
    match NumberOrNone(commission)
    case Err(e) => Err(e)
    case Ok(Some(p)) => Ok(p / 100.0)
    case Ok(None) => Ok(DefaultCommission(bookmakerName, defaultCommission))
  }

  /** The commission without a parsed one: `defaultCommission` for Betfair. */
  function DefaultCommission(bookmakerName: string, defaultCommission: real): real {
    if IsBetfair(bookmakerName) then defaultCommission else 0.0
  }

  /** A missing or blank commission defaults: `defaultCommission` for a
      name that lower-cases to "betfair", 0 for any other. */
  lemma CommissionDefaulting(bookmakerName: string, commission: Option<string>, defaultCommission: real)
    requires commission.None? || IsBlank(commission.value)
    ensures CommissionOf(bookmakerName, commission, defaultCommission)
            == Ok(if IsBetfair(bookmakerName) then defaultCommission else 0.0)
  {
    if commission.Some? {
      StripEmptyIffBlank(commission.value);
    }
  }

  /** A commission given as a numeral is a percentage. */
  lemma CommissionPercent(bookmakerName: string, commission: Option<string>, defaultCommission: real)
    requires commission.Some? && !IsBlank(commission.value) && ParseFloat(commission.value).Some?
    ensures CommissionOf(bookmakerName, commission, defaultCommission) == Ok(ParseFloat(commission.value).value / 100.0)
  {
    NumberOrNoneMeaning(commission);
    PercentOfNumber(bookmakerName, commission, defaultCommission, ParseFloat(commission.value).value);
  }

  lemma PercentOfNumber(bookmakerName: string, commission: Option<string>, defaultCommission: real, p: real)
    requires NumberOrNone(commission) == Ok(Some(p))
    ensures CommissionOf(bookmakerName, commission, defaultCommission) == Ok(p / 100.0)
  {
  }

  /** The commission fails to read exactly when its value is neither blank
      nor a numeral. */
  lemma CommissionFails(bookmakerName: string, commission: Option<string>, defaultCommission: real)
    ensures CommissionOf(bookmakerName, commission, defaultCommission).Err? <==>
              (commission.Some? && !IsBlank(commission.value) && ParseFloat(commission.value).None?)
  {
    NumberOrNoneMeaning(commission);
  }

  /** A name that is "betfair" in any letter case, sent with a leading
      space, finds the Betfair parser but does not get the Betfair default
      commission. */
  lemma PaddedBetfairName(name: string, defaultCommission: real)
    requires Lower(name) == "betfair"
    ensures HasParser(" " + name)
    ensures CommissionOf(" " + name, None, defaultCommission) == Ok(0.0)
  {
    var padded := " " + name;
    assert padded[1..] == name;
    StripLeadingSpace(padded);
    assert LowerChar(name[0]) == 'b' && LowerChar(name[6]) == 'r';
    StripUnpadded(name);
    assert ParserKey(padded) == "betfair";
    assert |Lower(padded)| != |"betfair"|;
  }

  /** What the upload settles on: odds, status, cash-out and profit, and
      the multi-bet details stored in the raw OCR record. */
  datatype Settled = Settled(
    odds: Option<real>,
    resultStatus: Option<string>,
    cashout: Option<real>,
    profit: real,
    multiDetails: Option<MultiBetParser.MultiSummary>)

  /** The single-bet branch: numbers read from the parse, commission by
      `CommissionOf`, profit by `compute_profit`. */
  function SettleSingle(single: SingleParse, bookmakerName: string, stake: real, defaultCommission: real)
    : Result<(Settled, real)>
  {
    match NumberOrNone(single.odds)
    case Err(e) => Err(e)
    case Ok(odds) =>
      match NumberOrNone(single.cashoutAmount)
      case Err(e) => Err(e)
      case Ok(cashout) =>
        match CommissionOf(bookmakerName, single.commission, defaultCommission)
        case Err(e) => Err(e)
        case Ok(comm) =>
          var profit := ComputeProfit(bookmakerName, single.side, odds, stake, single.resultStatus, cashout, Some(comm));
          Ok((Settled(odds, single.resultStatus, cashout, profit, None), comm))
  }

  /** The multi-versus-single choice: the slip summary is used when it found
      more than one bet, the single parse otherwise. The second component is
      the commission applied, `None` on the multi-bet branch. */
  function Choose(multi: MultiBetParser.MultiSummary, single: SingleParse, bookmakerName: string, stake: real,
                  defaultCommission: real): Result<(Settled, Option<real>)>
  {
    if multi.totalBets > 1 then
      Ok((Settled(multi.odds, Some(multi.resultStatus), None, multi.netProfit, Some(multi)), None))
    else
      match SettleSingle(single, bookmakerName, stake, defaultCommission)
      case Err(e) => Err(e)
      case Ok((s, comm)) => Ok((s, Some(comm)))
  }

  /** More than one bet on the slip: the slip's net profit and odds are
      used, there is no cash-out, and the summary is kept. */
  lemma ChooseMulti(multi: MultiBetParser.MultiSummary, single: SingleParse, bookmakerName: string, stake: real,
                    defaultCommission: real)
    requires multi.totalBets > 1
    ensures var r := Choose(multi, single, bookmakerName, stake, defaultCommission);
            r.Ok? && r.value.0.profit == multi.netProfit && r.value.0.cashout.None? &&
            r.value.0.odds == multi.odds && r.value.0.resultStatus == Some(multi.resultStatus) &&
            r.value.0.multiDetails == Some(multi)
  {
  }

  /** At most one bet on the slip: the profit is `compute_profit` on the
      single parse with the commission rule, nothing is stored from the
      summary, and the request fails exactly when a present, non-blank
      odds, cash-out or commission value is not a number. */
  lemma ChooseSingle(multi: MultiBetParser.MultiSummary, single: SingleParse, bookmakerName: string, stake: real,
                     defaultCommission: real)
    requires multi.totalBets <= 1
    ensures var r := Choose(multi, single, bookmakerName, stake, defaultCommission);
            r.Err? <==> (NumberOrNone(single.odds).Err? || NumberOrNone(single.cashoutAmount).Err? ||
                         NumberOrNone(single.commission).Err?)
    ensures var r := Choose(multi, single, bookmakerName, stake, defaultCommission);
            r.Ok? ==>
              NumberOrNone(single.odds).Ok? && NumberOrNone(single.cashoutAmount).Ok? &&
              CommissionOf(bookmakerName, single.commission, defaultCommission).Ok? &&
              var odds := NumberOrNone(single.odds).value;
              var cashout := NumberOrNone(single.cashoutAmount).value;
              var comm := CommissionOf(bookmakerName, single.commission, defaultCommission).value;
              r.value.0.multiDetails.None? && r.value.1 == Some(comm) &&
              r.value.0.odds == odds && r.value.0.cashout == cashout &&
              r.value.0.resultStatus == single.resultStatus &&
              r.value.0.profit == ComputeProfit(bookmakerName, single.side, odds, stake, single.resultStatus, cashout, Some(comm))
  {
    CommissionFails(bookmakerName, single.commission, defaultCommission);
  }

  /** An empty parse on a slip with at most one bet settles to nothing:
      no odds, no status, no cash-out and zero profit. */
  lemma ChooseUnparsed(multi: MultiBetParser.MultiSummary, bookmakerName: string, stake: real,
                       defaultCommission: real)
    requires multi.totalBets <= 1
    ensures var r := Choose(multi, NoParse, bookmakerName, stake, defaultCommission);
            r.Ok? && r.value.0.odds.None? && r.value.0.resultStatus.None? && r.value.0.cashout.None? &&
            r.value.0.profit == 0.0 && r.value.0.multiDetails.None?
  {
    var comm := CommissionOf(bookmakerName, None, defaultCommission).value;
    OtherStatusIsZero(bookmakerName, None, None, stake, None, None, Some(comm));
  }

  /** The columns `upload_bet` passes to `create_bet` (the raw OCR record is
      represented by the multi-bet details it may carry). */
  datatype BetRecord = BetRecord(
    setId: int,
    bookmakerName: string,
    uploadedBy: int,
    uploadedAt: real,
    imagePath: string,
    eventText: string,
    betType: string,
    oddsNumeric: Option<real>,
    stakeManual: real,
    potentialReturn: Option<real>,
    cashoutAmount: Option<real>,
    commissionRate: Option<real>,
    resultStatus: Option<string>,
    profit: real,
    multiDetails: Option<MultiBetParser.MultiSummary>,
    parseVersion: int,
    lastEditedBy: Option<int>,
    lastEditedAt: Option<real>)

  /** `text[:5000]` */
  function EventText(text: string): (r: string)
    ensures |r| <= 5000 && |r| <= |text| && r == text[..|r|]
    ensures |text| <= 5000 ==> r == text
    ensures |text| > 5000 ==> r == text[..5000]
  {
    if |text| <= 5000 then text else text[..5000]
  }

  /** `single_parsed.get("side") or "back"` */
  function BetTypeOf(side: Option<string>): (r: string)
    ensures r != ""
  {
    if side.Some? && side.value != "" then side.value else "back"
  }

  /** The commission rate as `upload_bet` stores it:
      `single_parsed.get("commission", 0)`, the parsed percentage text as the
      float column reads it. A bookmaker's parser always returns the key, so
      a missing value is stored as NULL; the `{}` of an unknown bookmaker has
      no key, and 0 is stored. */
  function StoredCommissionAsWritten(single: SingleParse, keyed: bool): Option<real> {
    match single.commission
    case None => if keyed then None else Some(0.0)
    case Some(s) => ParseFloat(s)
  }

  /** `upload_bet`: `e` is the pattern engine, `text` the OCR text of the
      image, `parsed` what the bookmaker's own parser returns for it, `now`
      the clock, `hex` the fresh unique id, `userId` the uploader. */
  function UploadSpec(e: CommonRegex.Engine, setId: int, bookmakerName: string, stake: real,
                      filename: Option<string>, userId: int, now: real, hex: string, text: string,
                      parsed: SingleParse, defaultCommission: real): Result<BetRecord>
  {
    var fname := SecureFilename(if filename.None? || filename.value == "" then "unknown.png" else filename.value, now, hex);
    var multi := MultiBetParser.MultiSpec(e, text);
    var single := SingleOf(bookmakerName, parsed);
    match Choose(multi, single, bookmakerName, stake, defaultCommission)
    case Err(err) => Err(err)
    case Ok((s, _)) =>
      Ok(RecordOf(setId, bookmakerName, stake, userId, now, fname, text, single, s,
                  StoredCommissionAsWritten(single, HasParser(bookmakerName))))
  }

  /** The `create_bet` call of `upload_bet` once the choice is made, with
      `rate` as the commission rate. */
  function RecordOf(setId: int, bookmakerName: string, stake: real, userId: int, now: real, fname: string,
                    text: string, single: SingleParse, s: Settled, rate: Option<real>): BetRecord
  {
    BetRecord(setId, Strip(bookmakerName), userId, now, fname, EventText(text), BetTypeOf(single.side),
              s.odds, stake, None, s.cashout, rate, s.resultStatus,
              s.profit, s.multiDetails, 2, None, None)
  }

  /** The record keeps the stripped bookmaker name, the uploader, the
      stake, the first 5000 characters of the text (all of a shorter one), a bet type (the parsed
      side or "back"), parse version 2 and no edit marks. */
  lemma UploadRecordFields(e: CommonRegex.Engine, setId: int, bookmakerName: string, stake: real,
                           filename: Option<string>, userId: int, now: real, hex: string, text: string,
                           parsed: SingleParse, defaultCommission: real)
    ensures var r := UploadSpec(e, setId, bookmakerName, stake, filename, userId, now, hex, text, parsed, defaultCommission);
            r.Ok? ==>
              r.value.setId == setId && r.value.bookmakerName == Strip(bookmakerName) &&
              r.value.uploadedBy == userId && r.value.uploadedAt == now && r.value.stakeManual == stake &&
              r.value.eventText == (if |text| <= 5000 then text else text[..5000]) &&
              |r.value.eventText| <= 5000 && r.value.eventText == text[..|r.value.eventText|] &&
              r.value.betType == BetTypeOf(SingleOf(bookmakerName, parsed).side) && r.value.betType != "" &&
              r.value.potentialReturn.None? && r.value.parseVersion == 2 &&
              r.value.lastEditedBy.None? && r.value.lastEditedAt.None?
    ensures var r := UploadSpec(e, setId, bookmakerName, stake, filename, userId, now, hex, text, parsed, defaultCommission);
            r.Ok? && (filename.None? || filename.value == "") ==>
              r.value.imagePath == SecureFilename("unknown.png", now, hex)
    ensures var r := UploadSpec(e, setId, bookmakerName, stake, filename, userId, now, hex, text, parsed, defaultCommission);
            r.Ok? ==>
              r.value.imagePath == SecureFilename(if filename.None? || filename.value == "" then "unknown.png" else filename.value,
                                                  now, hex)
  {
  }

  /** A slip with several bets is stored with the slip's net profit, no
      cash-out and the slip summary; otherwise the single-bet settlement is
      stored. Either way the commission rate is the parsed one as written,
      not the fraction the settlement applied. */
  lemma UploadPath(e: CommonRegex.Engine, setId: int, bookmakerName: string, stake: real,
                   filename: Option<string>, userId: int, now: real, hex: string, text: string,
                   parsed: SingleParse, defaultCommission: real)
    ensures var multi := MultiBetParser.MultiSpec(e, text);
            var r := UploadSpec(e, setId, bookmakerName, stake, filename, userId, now, hex, text, parsed, defaultCommission);
            multi.totalBets > 1 ==>
              r.Ok? && r.value.profit == multi.netProfit && r.value.cashoutAmount.None? &&
              r.value.oddsNumeric == multi.odds && r.value.multiDetails == Some(multi)
    ensures var r := UploadSpec(e, setId, bookmakerName, stake, filename, userId, now, hex, text, parsed, defaultCommission);
            r.Ok? ==> r.value.commissionRate == StoredCommissionAsWritten(SingleOf(bookmakerName, parsed), HasParser(bookmakerName))
    ensures var multi := MultiBetParser.MultiSpec(e, text);
            var single := SingleOf(bookmakerName, parsed);
            var r := UploadSpec(e, setId, bookmakerName, stake, filename, userId, now, hex, text, parsed, defaultCommission);
            multi.totalBets <= 1 ==>
              (r.Err? <==> (NumberOrNone(single.odds).Err? || NumberOrNone(single.cashoutAmount).Err? ||
                            NumberOrNone(single.commission).Err?))
    ensures var multi := MultiBetParser.MultiSpec(e, text);
            var single := SingleOf(bookmakerName, parsed);
            var r := UploadSpec(e, setId, bookmakerName, stake, filename, userId, now, hex, text, parsed, defaultCommission);
            multi.totalBets <= 1 && r.Ok? ==>
              NumberOrNone(single.odds).Ok? && NumberOrNone(single.cashoutAmount).Ok? &&
              CommissionOf(bookmakerName, single.commission, defaultCommission).Ok? &&
              var comm := CommissionOf(bookmakerName, single.commission, defaultCommission).value;
              r.value.oddsNumeric == NumberOrNone(single.odds).value &&
              r.value.cashoutAmount == NumberOrNone(single.cashoutAmount).value &&
              r.value.multiDetails.None? &&
              r.value.resultStatus == single.resultStatus &&
              r.value.profit == ComputeProfit(bookmakerName, single.side, r.value.oddsNumeric, stake,
                                              single.resultStatus, r.value.cashoutAmount, Some(comm))
  {
    var multi := MultiBetParser.MultiSpec(e, text);
    var single := SingleOf(bookmakerName, parsed);
    if multi.totalBets > 1 {
      ChooseMulti(multi, single, bookmakerName, stake, defaultCommission);
    } else {
      ChooseSingle(multi, single, bookmakerName, stake, defaultCommission);
    }
  }

  /** A bookmaker without a parser, on a slip with at most one bet, is stored
      unsettled: no odds, no status, a "back" bet, zero profit and a zero
      commission rate. */
  lemma UnknownBookmakerUnsettled(e: CommonRegex.Engine, setId: int, bookmakerName: string, stake: real,
                                  filename: Option<string>, userId: int, now: real, hex: string, text: string,
                                  parsed: SingleParse, defaultCommission: real)
    requires !HasParser(bookmakerName)
    requires MultiBetParser.MultiSpec(e, text).totalBets <= 1
    ensures var r := UploadSpec(e, setId, bookmakerName, stake, filename, userId, now, hex, text, parsed, defaultCommission);
            r.Ok? && r.value.oddsNumeric.None? && r.value.resultStatus.None? && r.value.cashoutAmount.None? &&
            r.value.betType == "back" && r.value.profit == 0.0 && r.value.commissionRate == Some(0.0)
  {
    var multi := MultiBetParser.MultiSpec(e, text);
    var fname := SecureFilename(if filename.None? || filename.value == "" then "unknown.png" else filename.value, now, hex);
    assert SingleOf(bookmakerName, parsed) == NoParse;
    ChooseUnparsed(multi, bookmakerName, stake, defaultCommission);
    var c := Choose(multi, NoParse, bookmakerName, stake, defaultCommission).value;
    assert UploadSpec(e, setId, bookmakerName, stake, filename, userId, now, hex, text, parsed, defaultCommission)
        == Ok(RecordOf(setId, bookmakerName, stake, userId, now, fname, text, NoParse, c.0, Some(0.0)));
  }
}
