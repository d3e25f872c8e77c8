/** The pattern library and the single-slip extractors (`grab`,
    `parse_common`, `parse_enhanced`).

    The regular expressions themselves are not modelled: an `Engine` is the
    regex search, given a pattern and the searched text it returns the groups
    of the first match or `None`. Everything the extractors decide on top of
    those searches (which group is taken, which fallback is consulted, which
    status overrides which) is modelled exactly. */
module CommonRegex {
  import opened Wrappers
  import opened Text
  import opened Rules

  /** The patterns the extractors search for (the `*_RE` constants and the
      inline patterns), plus the two the multi-bet splitter searches each
      section for. */
  datatype Pattern =
    | Stake          // STAKE_RE
    | Odds           // ODDS_RE
    | Return         // RET_RE
    | ResultStatus   // RESULT_RE
    | Cashout        // CASHOUT_RE
    | Commission     // COMM_RE
    | Side           // SIDE_RE
    | WinAmount      // WIN_AMOUNT_RE: optional "win", then "+$amount"
    | LossAmount     // LOSS_AMOUNT_RE: "-$amount"
    | Legs           // LEGS_RE: "<N> legs"
    | Bonus          // BONUS_RE
    | AltOdds        // "multi" or "same game" followed by a decimal
    | WinWord        // tick glyph, "tick", "win", "won", "winning"
    | LossWord       // cross glyph, "x", "cross", "lose", "lost", "losing"
    | PendingWord    // "pending" or "waiting"
    | NoReturn       // NO_RETURN_RE: "no return", "n/a", ...
    | CollectedZero  // COLLECTED_ZERO_RE: "collected $0.00"
    | LossIndicator  // LOSS_INDICATORS_RE: whole-word lost/lose/losing
    | WinIndicator   // WIN_INDICATORS_RE: "win +$amount"
    | DollarAmount   // "$amount", the bonus value
    | PlusReturn     // multi-bet section return: "+$amount"
    | LegCount       // multi-bet section legs: "<N> leg(s)"

  /** How many capture groups each pattern has. */
  function GroupCount(p: Pattern): nat {
    match p
    case Side | LossAmount | WinWord | LossWord | NoReturn | LossIndicator | DollarAmount
         | PlusReturn | LegCount => 1
    case PendingWord | CollectedZero => 0
    case _ => 2
  }

  /** The groups of one match: group k (from 1) is at index k - 1; a group that
      did not take part in the match is `None`. */
  type Groups = seq<Option<string>>

  /** The regex search `re.search(pattern, text, re.I)`. */
  type Engine = (Pattern, string) -> Option<Groups>

  /** `m.group(k)` */
  function Group(m: Groups, k: nat): Option<string> {
    if 1 <= k <= |m| then m[k - 1] else None
  }

  predicate Matches(e: Engine, p: Pattern, t: string) {
    e(p, t).Some?
  }

  /** Group k of the match, if there is one. */
  function Capture(e: Engine, p: Pattern, t: string, k: nat): Option<string> {
    match e(p, t)
    case None => None
    case Some(m) => Group(m, k)
  }

  /** The value group `grab` means to return: group 2, or group 1 for a
      single-group pattern. */
  function ValueGroup(p: Pattern): nat {
    if GroupCount(p) >= 2 then 2 else 1
  }

  /** `grab(rx, text_lower)`: group 2 of the first match; where the pattern has
      no group 2 (`IndexError`), group 1. */
  function Grab(e: Engine, p: Pattern, t: string): Option<string> {
    match e(p, t)
    case None => None
    case Some(m) =>
      if GroupCount(p) >= 2 then Group(m, 2) else Group(m, 1)
  }

  /** Every match of the pattern captures its value group, as the value groups
      of the library's patterns are not optional. */
  predicate ValueCaptured(e: Engine, p: Pattern, t: string) {
    e(p, t).Some? ==> Group(e(p, t).value, ValueGroup(p)).Some?
  }

  /** `grab` returns `None` exactly when the pattern does not match, and
      otherwise the value group. */
  lemma GrabIsValueGroup(e: Engine, p: Pattern, t: string)
    requires ValueCaptured(e, p, t)
    ensures Grab(e, p, t).None? <==> !Matches(e, p, t)
    ensures Grab(e, p, t) == Capture(e, p, t, ValueGroup(p))
    ensures p == Side ==> Grab(e, p, t) == Capture(e, p, t, 1)
    ensures p == Odds ==> Grab(e, p, t) == Capture(e, p, t, 2)
  {
  }

  /** A Python truth test on an optional string: present and non-empty. */
  predicate Truthy(s: Option<string>) {
    s.Some? && s.value != ""
  }

  /** `float(...)` of a captured amount. The patterns only capture unsigned
      decimals; a capture that is not one reads as 0. */
  function Amount(g: Option<string>): (r: real)
    ensures r >= 0.0
  {
    match g
    case Some(s) => ParseUnsigned(s).GetOr(0.0)
    case None => 0.0
  }

  /** The map `parse_common` returns. Keys that are always present hold
      `None` when nothing was captured; `actualReturn`, `lossAmount`, `legs`
      and `bonus` are `None` when the key is absent. */
  datatype CommonFields = CommonFields(
    stakeOcr: Option<string>,
    odds: Option<string>,
    potentialReturn: Option<string>,
    resultStatus: Option<string>,
    cashoutAmount: Option<string>,
    commission: Option<string>,
    side: Option<string>,
    actualReturn: Option<real>,
    lossAmount: Option<real>,
    legs: Option<string>,
    bonus: Option<string>)

  /** What the status cascade of `parse_common` decides. */
  datatype Verdict = Verdict(status: Option<string>, actualReturn: Option<real>, lossAmount: Option<real>)

  /** `parse_common`'s status cascade as an ordered rule list: a "+amount"
      wins, else a "-amount" loses, else the captured status stands, else the
      keyword fallback in the order won, lost, pending. */
  function CommonStatusRules(e: Engine, t: string): seq<Rule<Verdict>> {
    var captured := Grab(e, ResultStatus, t);
    [ Rule(Matches(e, WinAmount, t), Verdict(Some("won"), Some(Amount(Capture(e, WinAmount, t, 2))), None)),
      Rule(Matches(e, LossAmount, t), Verdict(Some("lost"), None, Some(Amount(Capture(e, LossAmount, t, 1))))),
      Rule(Truthy(captured), Verdict(captured, None, None)),
      Rule(Matches(e, WinWord, t), Verdict(Some("won"), None, None)),
      Rule(Matches(e, LossWord, t), Verdict(Some("lost"), None, None)),
      Rule(Matches(e, PendingWord, t), Verdict(Some("pending"), None, None)) ]
  }

  /** The odds `parse_common` settles on: the primary capture, or, when that
      is empty, the alternative "multi ... N.NN" capture. */
  function OddsOf(e: Engine, t: string): Option<string> {
    var primary := Grab(e, Odds, t);
    if !Truthy(primary) && Matches(e, AltOdds, t) then Capture(e, AltOdds, t, 2) else primary
  }

  /** Specification of `parse_common(text)`. */
  function CommonSpec(e: Engine, text: string): CommonFields {
    var t := Lower(text);
    var captured := Grab(e, ResultStatus, t);
    var v := FirstMatch(CommonStatusRules(e, t), Verdict(captured, None, None));
    var legs := Grab(e, Legs, t);
    var bonus := Grab(e, Bonus, t);
    CommonFields(Grab(e, Stake, t), OddsOf(e, t), Grab(e, Return, t), v.status, Grab(e, Cashout, t),
                 Grab(e, Commission, t), Grab(e, Side, t), v.actualReturn, v.lossAmount,
                 if Truthy(legs) then legs else None, if Truthy(bonus) then bonus else None)
  }

  /** `parse_common(text)`: builds the field map, then overwrites the odds and
      the status step by step. */
  method ParseCommon(e: Engine, text: string) returns (r: CommonFields)
    ensures r == CommonSpec(e, text)
  {
    var t := Lower(text);
    r := CommonFields(Grab(e, Stake, t), Grab(e, Odds, t), Grab(e, Return, t), Grab(e, ResultStatus, t),
                      Grab(e, Cashout, t), Grab(e, Commission, t), Grab(e, Side, t), None, None, None, None);
    var legs := Grab(e, Legs, t);
    var bonus := Grab(e, Bonus, t);

    if !Truthy(r.odds) {
      var alt := e(AltOdds, t);
      if alt.Some? {
        r := r.(odds := Group(alt.value, 2));
      }
    }

    var win := e(WinAmount, t);
    var loss := e(LossAmount, t);
    if win.Some? {
      r := r.(actualReturn := Some(Amount(Group(win.value, 2))), resultStatus := Some("won"));
    } else if loss.Some? {
      r := r.(lossAmount := Some(Amount(Group(loss.value, 1))), resultStatus := Some("lost"));
    }

    if !Truthy(r.resultStatus) {
      if e(WinWord, t).Some? {
        r := r.(resultStatus := Some("won"));
      } else if e(LossWord, t).Some? {
        r := r.(resultStatus := Some("lost"));
      } else if e(PendingWord, t).Some? {
        r := r.(resultStatus := Some("pending"));
      }
    }

    if Truthy(legs) {
      r := r.(legs := legs);
    }
    if Truthy(bonus) {
      r := r.(bonus := bonus);
    }

    CommonCascade(e, t);
  }

  /** The common status rule list read as the if/elif chain it specifies. */
  lemma CommonCascade(e: Engine, t: string)
    ensures var captured := Grab(e, ResultStatus, t);
            var v := FirstMatch(CommonStatusRules(e, t), Verdict(captured, None, None));
            v == if Matches(e, WinAmount, t) then Verdict(Some("won"), Some(Amount(Capture(e, WinAmount, t, 2))), None)
                 else if Matches(e, LossAmount, t) then Verdict(Some("lost"), None, Some(Amount(Capture(e, LossAmount, t, 1))))
                 else if Truthy(captured) then Verdict(captured, None, None)
                 else if Matches(e, WinWord, t) then Verdict(Some("won"), None, None)
                 else if Matches(e, LossWord, t) then Verdict(Some("lost"), None, None)
                 else if Matches(e, PendingWord, t) then Verdict(Some("pending"), None, None)
                 else Verdict(captured, None, None)
  {
    var rules := CommonStatusRules(e, t);
    var d := Verdict(Grab(e, ResultStatus, t), None, None);
    if Matches(e, WinAmount, t) {
      FirstMatchAt(rules, d, 0);
    } else if Matches(e, LossAmount, t) {
      FirstMatchAt(rules, d, 1);
    } else if Truthy(Grab(e, ResultStatus, t)) {
      FirstMatchAt(rules, d, 2);
    } else if Matches(e, WinWord, t) {
      FirstMatchAt(rules, d, 3);
    } else if Matches(e, LossWord, t) {
      FirstMatchAt(rules, d, 4);
    } else if Matches(e, PendingWord, t) {
      FirstMatchAt(rules, d, 5);
    } else {
      FirstMatchNone(rules, d);
    }
  }

  /** The alternative odds pattern is consulted only when the primary odds
      capture is empty. */
  lemma AltOddsOnlyWithoutPrimary(e: Engine, text: string)
    ensures Truthy(Grab(e, Odds, Lower(text))) ==> CommonSpec(e, text).odds == Grab(e, Odds, Lower(text))
    ensures !Truthy(Grab(e, Odds, Lower(text))) && Matches(e, AltOdds, Lower(text)) ==>
              CommonSpec(e, text).odds == Capture(e, AltOdds, Lower(text), 2)
  {
  }

  /** A "+amount" sets the actual return and forces "won", whatever status the
      result pattern captured. */
  lemma WinAmountForcesWon(e: Engine, text: string)
    requires Matches(e, WinAmount, Lower(text))
    ensures CommonSpec(e, text).resultStatus == Some("won")
    ensures CommonSpec(e, text).actualReturn == Some(Amount(Capture(e, WinAmount, Lower(text), 2)))
    ensures CommonSpec(e, text).lossAmount == None
  {
    FirstMatchAt(CommonStatusRules(e, Lower(text)), Verdict(Grab(e, ResultStatus, Lower(text)), None, None), 0);
  }

  /** A "-amount" sets the loss amount and forces "lost", but only when there
      is no "+amount". */
  lemma LossAmountForcesLost(e: Engine, text: string)
    requires !Matches(e, WinAmount, Lower(text)) && Matches(e, LossAmount, Lower(text))
    ensures CommonSpec(e, text).resultStatus == Some("lost")
    ensures CommonSpec(e, text).lossAmount == Some(Amount(Capture(e, LossAmount, Lower(text), 1)))
    ensures CommonSpec(e, text).actualReturn == None
  {
    FirstMatchAt(CommonStatusRules(e, Lower(text)), Verdict(Grab(e, ResultStatus, Lower(text)), None, None), 1);
  }

  /** Without signed amounts, a captured status stands and the keyword
      fallback does not run. */
  lemma CapturedStatusStands(e: Engine, text: string)
    requires !Matches(e, WinAmount, Lower(text)) && !Matches(e, LossAmount, Lower(text))
    requires Truthy(Grab(e, ResultStatus, Lower(text)))
    ensures CommonSpec(e, text).resultStatus == Grab(e, ResultStatus, Lower(text))
    ensures CommonSpec(e, text).actualReturn == None && CommonSpec(e, text).lossAmount == None
  {
    FirstMatchAt(CommonStatusRules(e, Lower(text)), Verdict(Grab(e, ResultStatus, Lower(text)), None, None), 2);
  }

  /** With no signed amount and no captured status, the keyword fallback
      decides in the fixed order won, lost, pending, and otherwise leaves the
      empty capture. */
  lemma KeywordFallbackOrder(e: Engine, text: string)
    requires !Matches(e, WinAmount, Lower(text)) && !Matches(e, LossAmount, Lower(text))
    requires !Truthy(Grab(e, ResultStatus, Lower(text)))
    ensures CommonSpec(e, text).resultStatus ==
              if Matches(e, WinWord, Lower(text)) then Some("won")
              else if Matches(e, LossWord, Lower(text)) then Some("lost")
              else if Matches(e, PendingWord, Lower(text)) then Some("pending")
              else Grab(e, ResultStatus, Lower(text))
  {
    var t := Lower(text);
    var rules := CommonStatusRules(e, t);
    var d := Verdict(Grab(e, ResultStatus, t), None, None);
    if Matches(e, WinWord, t) {
      FirstMatchAt(rules, d, 3);
    } else if Matches(e, LossWord, t) {
      FirstMatchAt(rules, d, 4);
    } else if Matches(e, PendingWord, t) {
      FirstMatchAt(rules, d, 5);
    } else {
      FirstMatchNone(rules, d);
    }
  }

  /** The `legs` and `bonus` keys are present only when their patterns
      captured something. */
  lemma MetadataOnlyWhenMatched(e: Engine, text: string)
    ensures CommonSpec(e, text).legs.Some? <==> Truthy(Grab(e, Legs, Lower(text)))
    ensures CommonSpec(e, text).bonus.Some? <==> Truthy(Grab(e, Bonus, Lower(text)))
    ensures CommonSpec(e, text).legs.Some? ==> CommonSpec(e, text).legs == Grab(e, Legs, Lower(text))
  {
  }

  // ---------------------------------------------------------------------
  // parse_enhanced

  /** The tick glyph exactly as the source spells it: the three characters
      U+00E2 U+0153 U+201C (a UTF-8 check mark read as Windows-1252). */
  const Checkmark: string := "\U{E2}\U{153}\U{201C}"

  /** The `raw_ocr_json` map `parse_enhanced` fills (`None` = key absent). */
  datatype RawOcr = RawOcr(actualReturn: Option<real>, legs: Option<string>, bonus: Option<string>)

  /** `parse_enhanced`'s result: the common fields with the final status, the
      raw map and the `bet_type` key (`None` = absent). */
  datatype EnhancedFields = EnhancedFields(fields: CommonFields, raw: RawOcr, betType: Option<string>)

  /** What the enhanced cascade decides: the status and `raw.actual_return`. */
  datatype EnhancedVerdict = EnhancedVerdict(status: Option<string>, rawReturn: Option<real>)

  /** Statuses the enhanced cascade never overrides. */
  predicate IsKept(status: Option<string>) {
    status == Some("void") || status == Some("cash_out") || status == Some("cashout")
  }

  /** "no return", "n/a" or "collected $0.00". */
  predicate NoReturnWording(e: Engine, t: string) {
    Matches(e, NoReturn, t) || Matches(e, CollectedZero, t)
  }

  /** A loss indicator of either kind. */
  predicate LossWording(e: Engine, t: string) {
    NoReturnWording(e, t) || Matches(e, LossIndicator, t)
  }

  /** A check mark: the tick glyph in the original text, or "tick". */
  predicate CheckmarkIn(text: string) {
    Contains(text, Checkmark) || Contains(Lower(text), "tick")
  }

  /** `parse_enhanced`'s status precedence as an ordered rule list, applied on
      top of the status `parse_common` produced (`base`). */
  function EnhancedStatusRules(e: Engine, text: string, base: Option<string>): seq<Rule<EnhancedVerdict>> {
    var t := Lower(text);
    [ Rule(NoReturnWording(e, t), EnhancedVerdict(Some("lost"), Some(0.0))),
      Rule(Matches(e, LossIndicator, t), EnhancedVerdict(Some("lost"), None)),
      Rule(IsKept(base), EnhancedVerdict(base, None)),
      Rule((!Truthy(base) || base == Some("pending")) && Matches(e, WinIndicator, t),
           EnhancedVerdict(Some("won"), Some(Amount(Capture(e, WinIndicator, t, 2))))),
      Rule(!Truthy(base) && CheckmarkIn(text), EnhancedVerdict(Some("won"), None)) ]
  }

  function EnhancedVerdictOf(e: Engine, text: string): EnhancedVerdict {
    var base := CommonSpec(e, text).resultStatus;
    FirstMatch(EnhancedStatusRules(e, text, base), EnhancedVerdict(base, None))
  }

  /** Specification of `parse_enhanced(text)`. */
  function EnhancedSpec(e: Engine, text: string): EnhancedFields {
    var c := CommonSpec(e, text);
    var t := Lower(text);
    var v := EnhancedVerdictOf(e, text);
    var legs := if Matches(e, Legs, t) then Capture(e, Legs, t, 1) else None;
    var bonus := if (Contains(t, "bonus bet") || Contains(t, "get a $")) && Matches(e, DollarAmount, t)
                 then Capture(e, DollarAmount, t, 1) else None;
    EnhancedFields(c.(resultStatus := v.status), RawOcr(v.rawReturn, legs, bonus),
                   if Matches(e, Legs, t) then Some("multi") else None)
  }

  /** `parse_enhanced(text)`: runs `parse_common`, then overwrites the status
      and fills the raw map through an if/elif cascade. */
  method ParseEnhanced(e: Engine, text: string) returns (r: EnhancedFields)
    ensures r == EnhancedSpec(e, text)
  {
    var t := Lower(text);
    var result := ParseCommon(e, text);
    var raw := RawOcr(None, None, None);
    var betType: Option<string> := None;

    if e(NoReturn, t).Some? || e(CollectedZero, t).Some? {
      result := result.(resultStatus := Some("lost"));
      raw := raw.(actualReturn := Some(0.0));
    } else if e(LossIndicator, t).Some? {
      result := result.(resultStatus := Some("lost"));
    } else if result.resultStatus in [Some("void"), Some("cash_out"), Some("cashout")] {
      // kept as parsed
    } else if !Truthy(result.resultStatus) || result.resultStatus == Some("pending") {
      var win := e(WinIndicator, t);
      if win.Some? {
        raw := raw.(actualReturn := Some(Amount(Group(win.value, 2))));
        result := result.(resultStatus := Some("won"));
      } else if !Truthy(result.resultStatus) && (Contains(text, Checkmark) || Contains(t, "tick")) {
        result := result.(resultStatus := Some("won"));
      }
    }

    var legs := e(Legs, t);
    if legs.Some? {
      raw := raw.(legs := Group(legs.value, 1));
      betType := Some("multi");
    }

    if Contains(t, "bonus bet") || Contains(t, "get a $") {
      var bonus := e(DollarAmount, t);
      if bonus.Some? {
        raw := raw.(bonus := Group(bonus.value, 1));
      }
    }

    r := EnhancedFields(result, raw, betType);
    EnhancedCascade(e, text);
  }

  /** The enhanced status rule list read as the if/elif chain it specifies. */
  lemma EnhancedCascade(e: Engine, text: string)
    ensures var t := Lower(text);
            var base := CommonSpec(e, text).resultStatus;
            EnhancedVerdictOf(e, text) ==
              if NoReturnWording(e, t) then EnhancedVerdict(Some("lost"), Some(0.0))
              else if Matches(e, LossIndicator, t) then EnhancedVerdict(Some("lost"), None)
              else if IsKept(base) then EnhancedVerdict(base, None)
              else if (!Truthy(base) || base == Some("pending")) && Matches(e, WinIndicator, t) then
                EnhancedVerdict(Some("won"), Some(Amount(Capture(e, WinIndicator, t, 2))))
              else if !Truthy(base) && CheckmarkIn(text) then EnhancedVerdict(Some("won"), None)
              else EnhancedVerdict(base, None)
  {
    var t := Lower(text);
    var base := CommonSpec(e, text).resultStatus;
    var rules := EnhancedStatusRules(e, text, base);
    var d := EnhancedVerdict(base, None);
    if NoReturnWording(e, t) {
      FirstMatchAt(rules, d, 0);
    } else if Matches(e, LossIndicator, t) {
      FirstMatchAt(rules, d, 1);
    } else if IsKept(base) {
      FirstMatchAt(rules, d, 2);
    } else if (!Truthy(base) || base == Some("pending")) && Matches(e, WinIndicator, t) {
      FirstMatchAt(rules, d, 3);
    } else if !Truthy(base) && CheckmarkIn(text) {
      FirstMatchAt(rules, d, 4);
    } else {
      FirstMatchNone(rules, d);
    }
  }

  /** "no return", "n/a" or "collected $0.00" forces "lost" with a zero raw
      return, overriding any earlier status, "won" included. */
  lemma NoReturnForcesLost(e: Engine, text: string)
    requires NoReturnWording(e, Lower(text))
    ensures EnhancedSpec(e, text).fields.resultStatus == Some("lost")
    ensures EnhancedSpec(e, text).raw.actualReturn == Some(0.0)
  {
  }

  /** A whole-word lost/lose/losing forces "lost", and a check mark elsewhere
      in the text cannot undo it. */
  lemma LossOutranksCheckmark(e: Engine, text: string)
    requires Matches(e, LossIndicator, Lower(text))
    ensures EnhancedSpec(e, text).fields.resultStatus == Some("lost")
    ensures !NoReturnWording(e, Lower(text)) ==> EnhancedSpec(e, text).raw.actualReturn == None
  {
    EnhancedCascade(e, text);
  }

  /** Without loss wording, "void", "cash_out" and "cashout" are kept as
      parsed. */
  lemma KeptStatusesSurvive(e: Engine, text: string)
    requires !LossWording(e, Lower(text)) && IsKept(CommonSpec(e, text).resultStatus)
    ensures EnhancedSpec(e, text).fields.resultStatus == CommonSpec(e, text).resultStatus
    ensures EnhancedSpec(e, text).raw.actualReturn == None
  {
    var base := CommonSpec(e, text).resultStatus;
    FirstMatchAt(EnhancedStatusRules(e, text, base), EnhancedVerdict(base, None), 2);
  }

  /** "win +$" is consulted only for an empty or "pending" status: it then
      forces "won" and records the amount. */
  lemma WinIndicatorOnEmptyOrPending(e: Engine, text: string)
    requires !LossWording(e, Lower(text))
    requires !Truthy(CommonSpec(e, text).resultStatus) || CommonSpec(e, text).resultStatus == Some("pending")
    requires Matches(e, WinIndicator, Lower(text))
    ensures EnhancedSpec(e, text).fields.resultStatus == Some("won")
    ensures EnhancedSpec(e, text).raw.actualReturn == Some(Amount(Capture(e, WinIndicator, Lower(text), 2)))
  {
    var base := CommonSpec(e, text).resultStatus;
    FirstMatchAt(EnhancedStatusRules(e, text, base), EnhancedVerdict(base, None), 3);
  }

  /** The check mark counts only when no status was found at all: "pending"
      plus a tick stays "pending". */
  lemma PendingTickStaysPending(e: Engine, text: string)
    requires !LossWording(e, Lower(text)) && !Matches(e, WinIndicator, Lower(text))
    requires CommonSpec(e, text).resultStatus == Some("pending")
    ensures EnhancedSpec(e, text).fields.resultStatus == Some("pending")
    ensures EnhancedSpec(e, text).raw.actualReturn == None
  {
    var base := CommonSpec(e, text).resultStatus;
    FirstMatchNone(EnhancedStatusRules(e, text, base), EnhancedVerdict(base, None));
  }

  /** With no status at all and no other signal, a check mark means "won". */
  lemma CheckmarkOnEmpty(e: Engine, text: string)
    requires !LossWording(e, Lower(text)) && !Matches(e, WinIndicator, Lower(text))
    requires !Truthy(CommonSpec(e, text).resultStatus) && CheckmarkIn(text)
    ensures EnhancedSpec(e, text).fields.resultStatus == Some("won")
  {
    var base := CommonSpec(e, text).resultStatus;
    FirstMatchAt(EnhancedStatusRules(e, text, base), EnhancedVerdict(base, None), 4);
  }

  /** Any other established status is left alone by the cascade. */
  lemma OtherStatusesUntouched(e: Engine, text: string)
    requires !LossWording(e, Lower(text))
    requires Truthy(CommonSpec(e, text).resultStatus) && CommonSpec(e, text).resultStatus != Some("pending")
    ensures EnhancedSpec(e, text).fields.resultStatus == CommonSpec(e, text).resultStatus
  {
    var base := CommonSpec(e, text).resultStatus;
    var rules := EnhancedStatusRules(e, text, base);
    if IsKept(base) {
      FirstMatchAt(rules, EnhancedVerdict(base, None), 2);
    } else {
      FirstMatchNone(rules, EnhancedVerdict(base, None));
    }
  }

  /** The enhanced cascade only ever yields the parsed status, "lost" or
      "won"; every other field of the common map is passed through. */
  lemma EnhancedStatusRange(e: Engine, text: string)
    ensures var s := EnhancedSpec(e, text).fields.resultStatus;
            s == CommonSpec(e, text).resultStatus || s == Some("lost") || s == Some("won")
    ensures EnhancedSpec(e, text).fields.(resultStatus := CommonSpec(e, text).resultStatus) == CommonSpec(e, text)
  {
    var base := CommonSpec(e, text).resultStatus;
    var k := FirstMatchWitness(EnhancedStatusRules(e, text, base), EnhancedVerdict(base, None));
  }

  /** A legs match tags the bet as a multi and records the leg count (group 1)
      in the raw map; without it neither key is set. */
  lemma LegsMakeMulti(e: Engine, text: string)
    ensures EnhancedSpec(e, text).betType == Some("multi") <==> Matches(e, Legs, Lower(text))
    ensures EnhancedSpec(e, text).betType.None? <==> !Matches(e, Legs, Lower(text))
    ensures Matches(e, Legs, Lower(text)) ==> EnhancedSpec(e, text).raw.legs == Capture(e, Legs, Lower(text), 1)
    ensures !Matches(e, Legs, Lower(text)) ==> EnhancedSpec(e, text).raw.legs.None?
  {
  }
}
