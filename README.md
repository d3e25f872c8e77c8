# BetOCR slip interpretation and profit reconciliation, in Dafny

BetOCR records bets from photographed betting slips. This project covers the
part of it that turns slip text into numbers:

- **The profit calculator** (`compute_profit`). It is a first-match-wins
  decision list: cash-out, then Betfair lay, then back.
- **The single-slip extractors** (`grab`, `parse_common`, `parse_enhanced`).
  They form a field map from regular-expression captures, then settle the
  result status through ordered override cascades.
- **The multi-bet splitter** (`parse_multiple_bets`). It cuts a slip at bet
  markers, settles each section with the return-first rule and its tolerance
  bands, and adds up stakes, returns and net profit.
- **The risk aggregator** (`risk_stats`, from the fetched rows on). It
  computes the daily P/L map and series, the equity curve, the maximum
  drawdown, VaR 95, the Sharpe ratio and the per-set and per-bookmaker
  exposures.
- **The CSV importer** (`import_csv`). It resolves set ids, sanitises the
  file name, detects legacy versus new headers, and runs the row loop with
  its counters.
- **The upload and edit rules of the bets router**:
  - the secure image file name;
  - the choice between the multi-bet summary and the single-bet parse, and
    the commission default;
  - the record that `create_bet` receives;
  - the owner/admin permission check, the field updates and
    "recompute profit iff stake, odds or status changed" in `update_bet`;
  - the owner/admin/five-minute rule in `delete_bet`.

Modules:

| module | file | models |
|---|---|---|
| `Wrappers` | wrappers.dfy | `Option`, HTTP errors, `Result` |
| `Money` | money.dfy | `round(x, 2)` / `round(x, 3)` on exact reals (round half to even), sums |
| `Text` | text.dfy | `strip`, `lower`, `isdigit`, `isalnum`, `float()` on decimal numerals, `str(int)` |
| `Rules` | rules.dfy | first-match-wins rule lists, which express the status cascades |
| `Profit` | profit.dfy | `services/profit.py` |
| `CommonRegex` | common_regex.dfy | `services/ocr/parsers/common_regex.py` |
| `MultiBetParser` | multi_bet_parser.dfy | `services/ocr/parsers/multi_bet_parser.py` |
| `Risk` | risk.dfy | `routers/risk.py` |
| `Imports` | imports.dfy | `routers/imports.py` |
| `BetFiles` | bet_files.dfy | `generate_secure_filename` in `routers/bets.py` |
| `BetUpload` | bet_upload.dfy | `upload_bet` in `routers/bets.py` |
| `BetEdit` | bet_edit.dfy | `update_bet` and `delete_bet` in `routers/bets.py` |
| `BetCommission` | bet_commission.dfy | the commission-rate finding below, both halves |

The model follows the source's structure.

- Pure code is modelled by functions, and its promises by lemmas.
- Code that works step by step becomes methods with loops:
  - `parse_common` and `parse_enhanced`;
  - the section loop of `parse_multiple_bets`;
  - the aggregation, equity-curve and drawdown loops of `risk_stats`;
  - the row loop of `import_csv`;
  - the `setattr` loop of `update_bet`.
- Each such method is proved equal to a specification function, and the
  properties are proved about that function.
- The bet row that `update_bet` mutates is the class `BetEdit.Bet`.

Inputs without a model of their own:

- **Regular expressions.** Each pattern is a value of `CommonRegex.Pattern`.
  Matching is an abstract engine of type `(Pattern, string) -> Option<Groups>`,
  passed as a parameter. The split markers of `parse_multiple_bets` are the
  exception: they are modelled concretely, so that the split lemmas say
  something about the text.
- **The database.** Sets, bookmakers and stored rows are parameters: a bet-set
  table, name maps, and an `Option<BetRow>` for "the bet with this id".
- **The clock, `uuid4().hex`, `math.sqrt` and `BETFAIR_DEFAULT_COMMISSION`**
  (0.05, `config.py:25`) are parameters.
- **The per-bookmaker parsers** (`ladbrokes.parse`, ...) are not part of
  this model. Their result is the `parsed` parameter of the upload.

Three details of the code that are easy to get wrong:

- `net_profit` of a slip is `round2` of the sum of the unrounded section
  profits. It is not the sum of the rounded ones.
- The status cascade with loss wording and checkmarks exists only in
  `parse_enhanced`. The multi-bet splitter uses `parse_common`.
- A malformed number in a single-bet parse is not treated as absent.
  `float()` raises, and the upload fails (status 500).

## Model

| member | source | states |
|---|---|---|
| Profit.CashoutTakesPrecedence | BetOCR/app/services/profit.py:4-5 | a status starting with "cashout" (any case) with a cash-out amount gives `round2(cashout - stake)`, whatever the bookmaker, side, odds and commission |
| Profit.LayWon | BetOCR/app/services/profit.py:6-8 | a Betfair lay that won gives `round2(stake * (1 - commission))` |
| Profit.LayLostOrOther | BetOCR/app/services/profit.py:6-11 | a Betfair lay that lost with non-zero odds gives `round2(-stake * (odds - 1))`; any other non-cash-out status gives 0 |
| Profit.BackWon | BetOCR/app/services/profit.py:13-14 | a back bet that won gives `round2(stake * (odds - 1) * (1 - commission))`, or 0 when odds are missing or zero |
| Profit.BackLost | BetOCR/app/services/profit.py:15-16 | a back bet that lost gives `round2(-stake)`, independent of odds and commission, and exactly `-stake` for a whole number of cents |
| Profit.NoCommissionIsZero | BetOCR/app/services/profit.py:3 | a missing commission behaves as commission 0 |
| Profit.NonBetfairLayIsBack | BetOCR/app/services/profit.py:6-16 | a lay side on a bookmaker other than Betfair is settled by the back rules |
| Profit.OtherStatusIsZero | BetOCR/app/services/profit.py:4-17 | a status other than "won" and "lost" (which match case-sensitively) and not a cash-out gives 0 |
| Profit.LayLossMirrorsBackWin | BetOCR/app/services/profit.py:9-14 | a lost lay is the negation of a won back bet at the same odds and stake without commission |
| Money.Round2 | BetOCR/app/services/profit.py:5 | `round(x, 2)` lies within half a cent of `x` |
| CommonRegex.GrabIsValueGroup | BetOCR/app/services/ocr/parsers/common_regex.py:23-31 | `grab` is `None` exactly when the pattern does not match, else the value group: group 2, or group 1 for single-group patterns such as the side |
| CommonRegex.Amount | BetOCR/app/services/ocr/parsers/common_regex.py:63 | a captured amount reads as a non-negative number |
| CommonRegex.ParseCommon | BetOCR/app/services/ocr/parsers/common_regex.py:33-85 | the step-by-step `parse_common` equals its declarative specification (field map plus first-match status rules) |
| CommonRegex.CommonCascade | BetOCR/app/services/ocr/parsers/common_regex.py:58-77 | the status is decided in order: "+amount", "-amount", the captured status, then win, loss and pending keywords |
| CommonRegex.AltOddsOnlyWithoutPrimary | BetOCR/app/services/ocr/parsers/common_regex.py:51-56 | the "multi/same game … N.NN" odds are used only when the primary odds capture is empty |
| CommonRegex.WinAmountForcesWon | BetOCR/app/services/ocr/parsers/common_regex.py:59-64 | a "+amount" match forces "won" and sets the actual return, overriding the captured status |
| CommonRegex.LossAmountForcesLost | BetOCR/app/services/ocr/parsers/common_regex.py:59-67 | without a "+amount" match, a "-amount" match forces "lost" and sets the loss amount |
| CommonRegex.CapturedStatusStands | BetOCR/app/services/ocr/parsers/common_regex.py:62-70 | without either amount, a non-empty captured status is kept and no amount is recorded |
| CommonRegex.KeywordFallbackOrder | BetOCR/app/services/ocr/parsers/common_regex.py:70-77 | with the status still empty: tick/win gives "won", else cross/x/lose gives "lost", else pending/waiting gives "pending" |
| CommonRegex.MetadataOnlyWhenMatched | BetOCR/app/services/ocr/parsers/common_regex.py:80-83 | `legs` and `bonus` are present exactly when their captures are non-empty |
| CommonRegex.ParseEnhanced | BetOCR/app/services/ocr/parsers/common_regex.py:93-139 | the step-by-step `parse_enhanced` equals its declarative specification |
| CommonRegex.EnhancedCascade | BetOCR/app/services/ocr/parsers/common_regex.py:102-125 | the enhanced status order: no-return wording, loss word, kept void/cash-out, "win +$" on an empty or pending status, checkmark on an empty status |
| CommonRegex.NoReturnForcesLost | BetOCR/app/services/ocr/parsers/common_regex.py:106-108 | "no return"/"n/a"/"collected $0.00" forces "lost" and a raw actual return of 0, overriding even "won" |
| CommonRegex.LossOutranksCheckmark | BetOCR/app/services/ocr/parsers/common_regex.py:109-110 | a whole-word lost/lose/losing forces "lost", whatever checkmark is present |
| CommonRegex.KeptStatusesSurvive | BetOCR/app/services/ocr/parsers/common_regex.py:113-114 | without loss wording, "void", "cash_out" and "cashout" are kept unchanged |
| CommonRegex.WinIndicatorOnEmptyOrPending | BetOCR/app/services/ocr/parsers/common_regex.py:117-121 | "win +$amount" on an empty or pending status gives "won" and records the amount |
| CommonRegex.PendingTickStaysPending | BetOCR/app/services/ocr/parsers/common_regex.py:117-125 | "pending" with a tick and no "win +$" stays "pending" |
| CommonRegex.CheckmarkOnEmpty | BetOCR/app/services/ocr/parsers/common_regex.py:124-125 | a checkmark or "tick" on an empty status gives "won" |
| CommonRegex.OtherStatusesUntouched | BetOCR/app/services/ocr/parsers/common_regex.py:106-125 | without loss wording, any other non-empty status than "pending" is passed through |
| CommonRegex.EnhancedStatusRange | BetOCR/app/services/ocr/parsers/common_regex.py:96-125 | the enhanced status is the common one, "lost" or "won", and every other field is the common one |
| CommonRegex.LegsMakeMulti | BetOCR/app/services/ocr/parsers/common_regex.py:128-131 | `bet_type` is "multi" exactly when the legs pattern matches, and the leg count is then recorded in `raw` |
| MultiBetParser.SplitOnCuts | BetOCR/app/services/ocr/parsers/multi_bet_parser.py:10 | a lookahead split loses nothing: the pieces concatenate to the text, every piece after the first is non-empty and starts at a cut, no piece holds an inner cut, and the first is empty iff the text is empty or starts at a cut |
| MultiBetParser.SplitCuts | BetOCR/app/services/ocr/parsers/multi_bet_parser.py:10 | the same for the "Same Game Multi @" / "Multi @" / "Bet N" markers |
| MultiBetParser.FailedLegsOnReturn | BetOCR/app/services/ocr/parsers/multi_bet_parser.py:44-58 | with a return, at most one leg is counted as failed |
| MultiBetParser.ReturnFirst | BetOCR/app/services/ocr/parsers/multi_bet_parser.py:40-58 | with a positive return, profit is `return - stake`, failed legs are 0 or 1, and the status plays no part |
| MultiBetParser.FullWinAndPush | BetOCR/app/services/ocr/parsers/multi_bet_parser.py:45-55 | a return of `stake * odds` is a full win, one of `0.7 * stake` a 30 % loss, one of `stake` (outside the other bands) a push |
| MultiBetParser.SettleAsWrittenIgnoresWon | BetOCR/app/services/ocr/parsers/multi_bet_parser.py:60-68 | as written, a section with no return is always settled as lost, so a won section at 3.5 with stake 10 gives -10 |
| MultiBetParser.NoReturnSettlement | BetOCR/app/services/ocr/parsers/multi_bet_parser.py:60-72 | corrected: with no return, "won" with positive odds is a full win `stake * (odds - 1)`, anything else loses the stake |
| MultiBetParser.ParseSection | BetOCR/app/services/ocr/parsers/multi_bet_parser.py:17-37 | one pass of the loop appends exactly the section's entry, if any, to the accepted list |
| MultiBetParser.SettleSection | BetOCR/app/services/ocr/parsers/multi_bet_parser.py:39-83 | the settling step skips a section without odds and otherwise settles it by the cascade as written: return first, then "lost" or a zero return loses the stake, before the "won" test |
| MultiBetParser.ScanSections | BetOCR/app/services/ocr/parsers/multi_bet_parser.py:17-87 | the loop's bets and accumulators are the entries and the sums of stake, return and profit of the accepted sections, settled as written |
| MultiBetParser.AddSection | BetOCR/app/services/ocr/parsers/multi_bet_parser.py:74-87 | appending an entry keeps every accumulator equal to its sum |
| MultiBetParser.ParseMultipleBets | BetOCR/app/services/ocr/parsers/multi_bet_parser.py:5-101 | `parse_multiple_bets` equals its specification, whose sections are settled as written |
| MultiBetParser.NoReturnSectionsLose | BetOCR/app/services/ocr/parsers/multi_bet_parser.py:39-83 | as written, every entry of a slip either earns its return less its stake or, without a return, loses its stake with the lost-leg count, whatever its status; its reported profit is then `round2(-stake)` |
| MultiBetParser.EvalSectionAccepts | BetOCR/app/services/ocr/parsers/multi_bet_parser.py:17-82 | a section is accepted iff it is non-blank and has odds; its number is its index + 1, its return is not negative, and its profit field is its own profit rounded |
| MultiBetParser.SlipBetsOrdered | BetOCR/app/services/ocr/parsers/multi_bet_parser.py:17-75 | bet numbers are strictly increasing and lie between 1 and the number of sections |
| MultiBetParser.NoOddsNoBets | BetOCR/app/services/ocr/parsers/multi_bet_parser.py:18-25 | a slip in which no section has odds gives the empty, break-even summary |
| MultiBetParser.EmptySlip | BetOCR/app/services/ocr/parsers/multi_bet_parser.py:94-100 | the empty text gives the whole summary: no bets, zero stakes, returns and net profit, no odds, no stake and "break_even" as both verdicts |
| MultiBetParser.OverallFollowsNet | BetOCR/app/services/ocr/parsers/multi_bet_parser.py:95-100 | the verdict is "won"/"lost" exactly when the unrounded sum is positive/negative; `net_profit` is that sum rounded |
| MultiBetParser.SlipTotals | BetOCR/app/services/ocr/parsers/multi_bet_parser.py:85-99 | the count is the number of entries, the total return is not negative, a stake is reported iff the total stake is positive, and the odds are the first entry's |
| Risk.Aggregate | BetOCR/app/routers/risk.py:59-70 | the aggregation loop builds the profit list, the daily map and both exposure maps of their specifications |
| Risk.ProfitsAt | BetOCR/app/routers/risk.py:60-62 | one profit per row, a missing profit counted as 0 |
| Risk.DailyTotalsAreDaySums | BetOCR/app/routers/risk.py:64-65 | the daily map holds exactly the rows' days, each with the sum of that day's profits |
| Risk.ExposuresAreKeyStakes | BetOCR/app/routers/risk.py:67-70 | an exposure map holds exactly the non-zero ids of the rows, each with the sum of its stakes (missing stake as 0) |
| Risk.AscendingKeysOrdered | BetOCR/app/routers/risk.py:113-114 | the sorted ids are exactly the keys, strictly ascending |
| Risk.DailySeriesOf | BetOCR/app/routers/risk.py:73 | the series is strictly ascending by day, covers every day of the map, and holds each day's total rounded |
| Risk.DailySeriesIsPerDay | BetOCR/app/routers/risk.py:64-73 | the series has one entry per day of some row, holding that day's profit sum rounded |
| Risk.EquityCurve | BetOCR/app/routers/risk.py:75-78 | the curve loop computes the running sums |
| Risk.RunningSumsAt | BetOCR/app/routers/risk.py:76-78 | point i of the curve is the sum of the first i + 1 daily values |
| Risk.MaxDrawdown | BetOCR/app/routers/risk.py:81-91 | the peak/drawdown loop computes the drawdown function |
| Risk.PeakIsMax | BetOCR/app/routers/risk.py:83-87 | the running peak is the largest point and is a point |
| Risk.DrawdownIsLargestFall | BetOCR/app/routers/risk.py:81-91 | the drawdown is not negative, bounds the fall from every point to every later one, and equals one such fall |
| Risk.DrawdownOfEquity | BetOCR/app/routers/risk.py:76-91 | the same, stated on the equity curve of the daily values |
| Risk.SortRealsSorts | BetOCR/app/routers/risk.py:96 | `sorted` gives an ascending permutation |
| Risk.VarIndex | BetOCR/app/routers/risk.py:97 | the VaR index is always in bounds |
| Risk.Var95Picks | BetOCR/app/routers/risk.py:94-98 | VaR 95 is one of the profits rounded, and with at most 20 profits the smallest one |
| Risk.FlatVarianceZero | BetOCR/app/routers/risk.py:103-105 | equal profits have their common value as mean and a zero variance |
| Risk.SharpeDefinedIff | BetOCR/app/routers/risk.py:100-107 | Sharpe is `None` for fewer than two bets or a zero variance, defined otherwise (for a positive `sqrt`), and then `round(mean / sqrt(variance), 3)` |
| Risk.ExposureListOf | BetOCR/app/routers/risk.py:113-114 | an exposure list is ordered by id with one entry per key, named by the name table or `str(id)`, holding the value rounded |
| Risk.ExposureListIsPerId | BetOCR/app/routers/risk.py:67-114 | each exposure list covers exactly the non-zero ids the rows carry, ordered, with the rounded stake sum of each |
| Risk.RiskStats | BetOCR/app/routers/risk.py:50-127 | the aggregation body equals its specification |
| Risk.ReportShape | BetOCR/app/routers/risk.py:41-122 | `n` is the row count; no rows gives all-`None` figures and empty lists; otherwise the drawdown is that of the equity curve, rounded |
| Imports.FindSet | BetOCR/app/routers/imports.py:22-24 | the lookup finds the first matching set, or reports that none matches |
| Imports.ResolveSetIdMeaning | BetOCR/app/routers/imports.py:15-25 | `None`/blank gives `None`; otherwise the stripped value (by id if all digits, else by name) gives the first matching set's id, or `None` exactly when none matches |
| Imports.DigitsResolveById | BetOCR/app/routers/imports.py:21-23 | an all-digit value resolves to the set with that numeric id |
| Imports.Basename | BetOCR/app/routers/imports.py:47 | the base name is the part of the path after its last '/': a suffix with no '/', preceded by a '/' unless it is the whole path |
| Imports.KeepSafe | BetOCR/app/routers/imports.py:49 | the filtered name holds only alphanumerics and `._-` and is no longer than the input |
| Imports.KeepSafeCounts | BetOCR/app/routers/imports.py:49 | each safe character occurs in the filtered name as often as in the input, and no other character occurs in it |
| Imports.KeepSafeAppend | BetOCR/app/routers/imports.py:49 | the filter keeps order: filtering a concatenation concatenates the filtered parts |
| Imports.KeepSafeKeepsSafe | BetOCR/app/routers/imports.py:49 | a name already made of safe characters is unchanged |
| Imports.SafeOriginalIsSafe | BetOCR/app/routers/imports.py:47-51 | the sanitised name is the filtered base name (`unknown.csv` without a name), or `upload.csv` when the filter leaves nothing; it is non-empty, safe and has no '/', and is the base name itself when that is already safe |
| Imports.Headers | BetOCR/app/routers/imports.py:82 | one normalised header per field name |
| Imports.HeadersNormalised | BetOCR/app/routers/imports.py:82 | each field name appears stripped and lower-cased among the headers |
| Imports.DetectModeCases | BetOCR/app/routers/imports.py:80-94 | legacy and new are mutually exclusive; each is detected exactly by its header test; otherwise (or with no header) the result is a 400 |
| Imports.ImportRows | BetOCR/app/routers/imports.py:122-211 | the row loop computes the tally of the row outcomes |
| Imports.TallyCounts | BetOCR/app/routers/imports.py:122-211 | `len(errors) == skipped`, one created bet per insert, `total_rows` counts the non-blank rows, a dry run inserts nothing, otherwise `inserted + skipped == total_rows` |
| Imports.ErrorRowsIncrease | BetOCR/app/routers/imports.py:122-136 | error row numbers lie between 2 and the row count + 1 and strictly increase |
| Imports.ImportedRowFields | BetOCR/app/routers/imports.py:130-198 | an imported row has a set, a profit rounded to 2, and legacy stake 0 / odds `None` or the new-format stake and odds; new rows use the row's set, else the default |
| Imports.SetCheckedFirst | BetOCR/app/routers/imports.py:132-172 | a missing set is reported before any number is read: "Unknown set" for legacy, "Missing set" for new |
| Imports.ImportCsv | BetOCR/app/routers/imports.py:44-223 | the endpoint equals its specification |
| Imports.ImportInvariants | BetOCR/app/routers/imports.py:80-223 | the import fails (400) exactly on a bad header; otherwise the counters balance and a file is saved exactly when not a dry run |
| BetFiles.PathName | BetOCR/app/routers/bets.py:38 | the last path component has no '/' |
| BetFiles.NameEndsName | BetOCR/app/routers/bets.py:38 | a non-empty name is the component of the path that ends where the search of `PurePath(s).name` stops, at the end of the path or before a slash, and starts at the start of the path or after a slash |
| BetFiles.PathNameComponent | BetOCR/app/routers/bets.py:38 | the name `PurePath(s).name` is never ".", and a non-empty name is a whole component of the path: it lies between two slashes or the ends of the path |
| BetFiles.Suffix | BetOCR/app/routers/bets.py:38 | `Path.suffix` is empty or a dot followed by at least one character, none of them a dot |
| BetFiles.SuffixLastDot | BetOCR/app/routers/bets.py:38 | the suffix is a shorter tail of the name, and is non-empty exactly when the last dot of the name is neither its first nor its last character |
| BetFiles.Trunc | BetOCR/app/routers/bets.py:45 | `int()` truncates toward zero |
| BetFiles.SafeExtensionMeaning | BetOCR/app/routers/bets.py:38-42 | the extension is kept (lower-cased) iff it is alphanumeric once the dot is removed, else dropped; a kept one is a dot and lower-case alphanumerics |
| BetFiles.SafeExtensionChars | BetOCR/app/routers/bets.py:38-42 | the kept extension has only alphanumerics and a leading dot |
| BetFiles.SecureFilenameIsSafe | BetOCR/app/routers/bets.py:38-47 | for an alphanumeric hex, `<timestamp>_<hex><ext>` has only alphanumerics, `_`, `-` and `.`, and a dot only where the extension starts |
| BetUpload.SingleOf | BetOCR/app/routers/bets.py:71-72 | a known bookmaker (stripped, lower-cased) gets its parser's result, an unknown one the empty map |
| BetUpload.NumberOrNoneMeaning | BetOCR/app/routers/bets.py:86-89 | a missing or blank value reads as `None`, a numeral as its number, anything else fails the request |
| BetUpload.CommissionDefaulting | BetOCR/app/routers/bets.py:91 | a missing or blank commission is the default for "betfair" (any case) and 0 otherwise |
| BetUpload.CommissionPercent | BetOCR/app/routers/bets.py:91 | a commission numeral is a percentage, divided by 100 |
| BetUpload.CommissionFails | BetOCR/app/routers/bets.py:91 | the commission fails exactly when it is neither blank nor a numeral |
| BetUpload.PaddedBetfairName | BetOCR/app/routers/bets.py:71-91 | " Betfair" finds the Betfair parser but not the Betfair default commission |
| BetUpload.ChooseMulti | BetOCR/app/routers/bets.py:75-82 | more than one bet on the slip: the slip's net profit, odds and status, no cash-out, and the summary kept |
| BetUpload.ChooseSingle | BetOCR/app/routers/bets.py:84-93 | otherwise: profit by `compute_profit` on the parsed numbers and the commission rule; failure exactly when a number does not read |
| BetUpload.ChooseUnparsed | BetOCR/app/routers/bets.py:72-93 | an empty parse settles to no odds, no status, no cash-out and zero profit |
| BetUpload.EventText | BetOCR/app/routers/bets.py:103 | a text of at most 5000 characters is kept whole, and a longer one is cut to exactly its first 5000 characters |
| BetUpload.BetTypeOf | BetOCR/app/routers/bets.py:104 | the bet type is never empty: the parsed side or "back" |
| BetUpload.UploadRecordFields | BetOCR/app/routers/bets.py:95-117 | the record has the set, the stripped bookmaker name, the uploader, the upload time, the stake, the text itself when it has at most 5000 characters and otherwise exactly its first 5000, a non-empty bet type from the parsed side, no potential return, parse version 2 and no edit marks; the image is named after the file name, or `unknown.png` without one |
| BetUpload.UploadPath | BetOCR/app/routers/bets.py:74-117 | the stored record follows the multi path iff the slip has more than one bet, otherwise the single-bet settlement, failing exactly when a number does not read; on both paths the stored commission rate is the parsed commission text as read, NULL when a parser found none |
| BetUpload.UnknownBookmakerUnsettled | BetOCR/app/routers/bets.py:71-109 | an unknown bookmaker on a single-bet slip is stored with no odds, no status, "back", zero profit and commission rate 0 |
| BetEdit.ApplyLastWins | BetOCR/app/routers/bets.py:154-157 | after the update loop each editable field holds its last value in the update, or its old value |
| BetEdit.ApplyKeepsOthers | BetOCR/app/routers/bets.py:154-157 | the update loop changes no other column |
| BetEdit.Bet.SetFields | BetOCR/app/routers/bets.py:154-157 | the `setattr` loop leaves the row as the update applied to the old row |
| BetEdit.Bet.Edit | BetOCR/app/routers/bets.py:149-177 | the edit returns and stores the outcome of the edit rules, and changes nothing when refused |
| BetEdit.UpdateBet | BetOCR/app/routers/bets.py:139-182 | a missing bet is a 404; otherwise the edit on the stored row |
| BetEdit.EditOutcome | BetOCR/app/routers/bets.py:150-177 | refused (403) iff neither owner nor admin; otherwise the updated fields, untouched columns, edit marks, and a recomputed profit iff stake, odds or status is in the update and the bookmaker is known |
| BetEdit.EditWithoutProfitInputKeepsProfit | BetOCR/app/routers/bets.py:160 | an update of only the return or the bet type keeps the profit |
| BetEdit.DeleteOutcome | BetOCR/app/routers/bets.py:190-215 | a delete succeeds iff the bet exists and the user is its owner, an admin, or it is less than 300 s old; 404 and 403 otherwise; an editor can always delete |
| BetEdit.FreshUploadDeletableByAnyone | BetOCR/app/routers/bets.py:196-200 | within 300 s of the upload anyone may delete the bet, even a user who may not edit it |
| BetCommission.CommissionPercentStoredAsWritten | BetOCR/app/routers/bets.py:91-109 | as written, a Betfair back win at odds 3, stake 10, commission "5" is settled at 19.00 with 5 % commission but stores the rate 5.0 |
| BetCommission.CommissionPercentRecomputedAsWritten | BetOCR/app/routers/bets.py:160-173 | as written, re-saving the status of that row recomputes the profit as -80.00 |
| BetCommission.PercentSlipRecord | BetOCR/app/routers/bets.py:84-117 | as written, that upload stores odds 3.0, "won", profit 19.00 and the rate 5.0 |
| BetCommission.CorrectedRecord | BetOCR/app/routers/bets.py:95-117 | the corrected upload succeeds exactly when the upload as written does and differs from it only in the commission rate, which is the applied fraction on a single-bet slip |
| BetCommission.RecomputeReproducesUpload | BetOCR/app/routers/bets.py:84-173 | corrected: when the uploader re-saves the status of a single-bet upload (bookmaker name without padding), the recompute gives the profit stored at upload |
| BetCommission.ResaveKeepsRow | BetOCR/app/routers/bets.py:154-157 | setting the status to its own value changes nothing |
| BetCommission.RecordRecompute | BetOCR/app/routers/bets.py:160-173 | a record whose profit came from `compute_profit` with its stored columns gets the same profit back when recomputed |
| BetCommission.BetTypeKeepsSide | BetOCR/app/routers/bets.py:104-167 | storing the side as the bet type keeps lay as lay for the recompute |
| BetCommission.SingleRecompute | BetOCR/app/routers/bets.py:165-173 | a recompute on a row holding the upload's numbers and rate gives the upload's profit |

## Left out

- Letter case, digits and letters are ASCII. `str.lower`, `isdigit` and `isalnum` are modelled without Unicode case mapping, Unicode digits or Unicode letters. Whitespace for `strip` follows `str.isspace`, the Unicode spaces included.
- `float()` is modelled for signed decimal numerals with surrounding whitespace. Exponents, `inf`, `nan` and `_` digit separators are not modelled. Where the source fails the request on such a value, so does the model.
- CommonRegex.Amount, MultiBetParser.NumberOrZero and MultiBetParser.LegsOf: a capture that is not a numeral reads as 0 (as 1 legs for LegsOf), where `float()` and `int()` in the source raise. The real patterns capture only digits and decimals, so the source never meets such a capture. The abstract engine does admit one.
- Money is `real`. `round` is exact round-half-to-even, with no IEEE binary representation effects.
- VaR: `int(0.05 * (n - 1))` is modelled as `(n - 1) / 20`, which agrees with it on exact reals.
- The regular-expression engine is abstract. The model does not prove what each pattern matches, except for the split markers.
- The OCR engine (`ocr_image`), the per-bookmaker parsers, the file writes, `os.makedirs`, `os.remove` and the database are not part of this model. Their results are parameters.
- `uuid4`, the clock and `math.sqrt` are parameters. One clock reading serves both the image file name and `uploaded_at`, where the source reads the clock twice.
- `risk_stats` is modelled from the fetched rows on. The SQL window filter on `hours`, the `profit IS NOT NULL` filter and the `hours` echo in the response are not modelled.
- A pending row's `uploaded_at` of NULL falls on a `today` parameter, where the source reads the clock.
- `raw_ocr_json` is represented only by the multi-bet details it may carry. The OCR engine's own `raw` fields are not modelled.
- `parse_multiple_bets` returns `stake_ocr` as `str(total_stakes)`. The model keeps the number.
- `update_bet` with an explicit JSON `null` for a field is not modelled. The updates carry values. `hasattr` is always true for the five `BetUpdate` fields.
- The recompute's bookmaker join is modelled by the row's optional bookmaker name. Which row `.first()` returns is not modelled: ids are unique.
- `import_csv`: the byte decoding (UTF-8 with BOM, else Latin-1) and the CSV reader itself are not modelled. The field names and records are inputs. A CSV line with more values than there are headers is not modelled. `csv.DictReader` files the extra values as a list under the key `None`. Then `(v or '').strip()` at BetOCR/app/routers/imports.py:101 raises outside any `try`, so the whole request fails before any row is tallied. When it is not a dry run, the uploaded file has already been written (imports.py:62-63). The `except Exception` branch for errors other than a bad number (database errors) and the `CsvUpload` record bookkeeping are left out.
- `import_csv` error messages are represented by an error kind (unknown set, missing set, invalid number), not by their text.
- The upload writes the image before parsing, so a later failure leaves the file behind. The model does not model the file.
- `Path.suffix` follows Python before 3.14, where a name ending in a dot has no suffix.
- Risk.SharpeDefinedIff: the value is stated only for a `sqrt` that is positive on positive numbers. The model does not prove that `sqrt(var) > 0` for an arbitrary `sqrt`, since `math.sqrt` is not modelled.
- Column widths: the database rounds `stake_manual`, `profit` and the money columns to Numeric(12,2), `odds_numeric` to Numeric(10,3) and `commission_rate` to Numeric(5,4) (BetOCR/alembic/versions/0001_init.py:45-52). The model stores exact reals, so BetCommission.RecomputeReproducesUpload and BetCommission.RecordRecompute hold only for values these columns store exactly. A Numeric(5,4) rate holds four decimals and magnitudes below 10. That is sized for a fraction: a percentage of 10 or more does not fit. This agrees with the bets.py:109 finding.
- BetCommission.RecomputeReproducesUpload: stated for a bookmaker name with no surrounding whitespace. The recompute reads the stored, stripped name, and a padded "betfair" loses the Betfair rules (BetUpload.PaddedBetfairName).
- The per-bookmaker parsers are taken to return every key, as the field map of `parse_common` does. A parser without a "commission" key would have 0 stored, where the model stores NULL.
- A commission text that is not a numeral, which the multi-bet path and a blank single-bet value let through, is stored as NULL in the model. The source hands the text itself to the float column.
- Imports.ImportRows, Risk.Aggregate and the other loops are proved equal to their specification functions. The properties are then proved about those functions.

## Findings

| source | as written | input that shows it | evidently intended | confidence | as-written member | corrected member |
|---|---|---|---|---|---|---|
| BetOCR/app/routers/bets.py:109 | `commission_rate` stores the parsed commission as it appears on the slip, a percentage (`"5"` becomes 5.0), while the profit at upload used `5 / 100`. `update_bet` (lines 165-173) passes the stored rate to `compute_profit` as a fraction. | A Betfair back bet at odds "3", stake 10, status "won", commission "5" is stored with profit 19.00. Re-saving its status with the same "won" recomputes the profit as 10 × 2 × (1 − 5) = −80.00. | Store the commission that was applied (`comm`, a fraction), so that a recompute reproduces the upload's profit. | medium, not executed | BetCommission.CommissionPercentRecomputedAsWritten | BetCommission.RecomputeReproducesUpload |
| BetOCR/app/services/ocr/parsers/multi_bet_parser.py:62 | In the no-return branch, `result_status == "lost" or actual_return == 0` is always true, because `actual_return` is 0 there (the captured return is unsigned). The "won" branch on lines 65-68 is dead. | A section "Multi @ 3.5 … stake $10 … won" with no "+$" return is settled at −10. | A section marked won with positive odds and no return is a full win: `stake × (odds − 1)`, 25.00 here. | medium, not executed | MultiBetParser.SettleAsWrittenIgnoresWon | MultiBetParser.NoReturnSettlement |

The main model follows the code as written in both places:

- `BetUpload.UploadSpec` stores `BetUpload.StoredCommissionAsWritten`.
- `MultiBetParser.MultiSpec` settles each section by `MultiBetParser.SettleAsWritten`.

The corrected definitions sit beside them, with the intended properties
proved about them:

- `BetCommission.StoredCommission` and `BetCommission.UploadCorrected`;
- `MultiBetParser.Settle`.
