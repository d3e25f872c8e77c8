/** The CSV import endpoint (`import_csv`): set resolution, the stored file
    name, header-based format detection, and the row loop with its
    counters. */
module Imports {
  import opened Wrappers
  import opened Text
  import opened Money

  /** A stored bet set. */
  datatype BetSet = BetSet(id: int, name: string)

  /** How a set value is looked up: by primary key or by name. */
  datatype SetKey = ById(id: int) | ByName(name: string)

  predicate KeyMatches(b: BetSet, key: SetKey) {
    match key
    case ById(id) => b.id == id
    case ByName(name) => b.name == name
  }

  /** The first stored set the key selects. */
  function FindSet(sets: seq<BetSet>, key: SetKey): (r: Option<nat>)
    ensures r.Some? ==> r.value < |sets| && KeyMatches(sets[r.value], key)
    ensures r.Some? ==> forall j :: 0 <= j < r.value ==> !KeyMatches(sets[j], key)
    ensures r.None? ==> forall j :: 0 <= j < |sets| ==> !KeyMatches(sets[j], key)
    decreases |sets|
  {
    if |sets| == 0 then None
    else if KeyMatches(sets[0], key) then Some(0)
    else match FindSet(sets[1..], key)
      case Some(k) => Some(k + 1)
      case None => None
  }

  /** A stripped set value names an id when it is all digits, else a name. */
  function KeyOf(s: string): SetKey {
    if AllDigits(s) then ById(DigitsValue(s)) else ByName(s)
  }

  /** `_resolve_set_id(db, set_val)` */
  function ResolveSetId(sets: seq<BetSet>, setVal: Option<string>): Option<int> {
    if setVal.None? || setVal.value == "" then None
    else
      var s := Strip(setVal.value);
      if s == "" then None
      else match FindSet(sets, KeyOf(s))
        case Some(k) => Some(sets[k].id)
        case None => None
  }

  /** No set for a missing or blank value; otherwise the id of the first set
      whose id (for an all-digit value) or name (for any other) equals the
      stripped value, and none when no set does. */
  lemma ResolveSetIdMeaning(sets: seq<BetSet>, setVal: Option<string>)
    ensures setVal.None? || IsBlank(setVal.value) ==> ResolveSetId(sets, setVal).None?
    ensures setVal.Some? && !IsBlank(setVal.value) ==>
              var key := KeyOf(Strip(setVal.value));
              (ResolveSetId(sets, setVal).None? <==> forall j :: 0 <= j < |sets| ==> !KeyMatches(sets[j], key)) &&
              (ResolveSetId(sets, setVal).Some? ==>
                 exists k :: 0 <= k < |sets| && KeyMatches(sets[k], key) && ResolveSetId(sets, setVal) == Some(sets[k].id) &&
                             forall j :: 0 <= j < k ==> !KeyMatches(sets[j], key))
  {
    if setVal.Some? {
      StripEmptyIffBlank(setVal.value);
      if !IsBlank(setVal.value) {
        var key := KeyOf(Strip(setVal.value));
        match FindSet(sets, key)
        case Some(k) =>
          assert KeyMatches(sets[k], key);
        case None =>
      }
    }
  }

  /** An all-digit value is looked up by id, so a set whose name is the same
      digits is not found through it. */
  lemma DigitsResolveById(sets: seq<BetSet>, v: string)
    requires AllDigits(Strip(v))
    ensures ResolveSetId(sets, Some(v)).Some? ==>
              exists k :: 0 <= k < |sets| && sets[k].id == DigitsValue(Strip(v)) && ResolveSetId(sets, Some(v)) == Some(sets[k].id)
  {
    var s := Strip(v);
    if v != "" && s != "" {
      match FindSet(sets, KeyOf(s))
      case Some(k) =>
        assert sets[k].id == DigitsValue(s);
      case None =>
    }
  }

  // ---------------------------------------------------------------------
  // The stored file name

  /** `os.path.basename`: the part after the last `/`. */
  function Basename(path: string): (r: string)
    ensures forall i :: 0 <= i < |r| ==> r[i] != '/'
    ensures |r| <= |path| && r == path[|path| - |r|..]
    ensures |r| < |path| ==> path[|path| - |r| - 1] == '/'
    decreases |path|
  {
    if |path| == 0 then ""
    else if path[|path| - 1] == '/' then ""
    else Basename(path[..|path| - 1]) + [path[|path| - 1]]
  }

  /** `c.isalnum() or c in "._-"` */
  predicate SafeChar(c: char) {
    IsAlnum(c) || c == '.' || c == '_' || c == '-'
  }

  /** The characters of `s` that are safe, in order. */
  function KeepSafe(s: string): (r: string)
    ensures |r| <= |s|
    ensures forall i :: 0 <= i < |r| ==> SafeChar(r[i])
    decreases |s|
  {
    if |s| == 0 then "" else KeepSafe(s[..|s| - 1]) + (if SafeChar(s[|s| - 1]) then [s[|s| - 1]] else "")
  }

  /** Every safe character occurs in the filtered name as often as in `s`,
      and no other character occurs in it. */
  lemma {:induction false} KeepSafeCounts(s: string)
    ensures forall c :: multiset(KeepSafe(s))[c] == if SafeChar(c) then multiset(s)[c] else 0
    decreases |s|
  {
    if |s| > 0 {
      var p := s[..|s| - 1];
      KeepSafeCounts(p);
      assert s == p + [s[|s| - 1]];
      assert multiset(s) == multiset(p) + multiset([s[|s| - 1]]);
    }
  }

  /** The filter keeps order: filtering a concatenation concatenates the
      filtered parts. */
  lemma {:induction false} KeepSafeAppend(a: string, b: string)
    ensures KeepSafe(a + b) == KeepSafe(a) + KeepSafe(b)
    decreases |b|
  {
    if |b| == 0 {
      assert a + b == a;
    } else {
      var b' := b[..|b| - 1];
      assert (a + b)[..|a + b| - 1] == a + b';
      KeepSafeAppend(a, b');
    }
  }

  /** A name that is already safe passes through unchanged, so the filter is
      idempotent. */
  lemma {:induction false} KeepSafeKeepsSafe(s: string)
    requires forall i :: 0 <= i < |s| ==> SafeChar(s[i])
    ensures KeepSafe(s) == s
    decreases |s|
  {
    if |s| > 0 {
      KeepSafeKeepsSafe(s[..|s| - 1]);
      assert s[..|s| - 1] + [s[|s| - 1]] == s;
    }
  }

  /** `os.path.basename(file.filename) if file.filename else "unknown.csv"` */
  function OriginalName(filename: Option<string>): string {
    if filename.Some? && filename.value != "" then Basename(filename.value) else "unknown.csv"
  }

  /** The original name kept for the upload: the base name with only safe
      characters, `unknown.csv` without a name, `upload.csv` when nothing
      survives. */
  function SafeOriginal(filename: Option<string>): string {
    var safe := KeepSafe(OriginalName(filename));
    if safe == "" then "upload.csv" else safe
  }

  /** `f"{timestamp}_{unique_id}_{safe_original}"` under `csv_uploads/`. */
  function StoredCsvPath(timestamp: int, uniqueId: string, filename: Option<string>): string {
    "csv_uploads/" + IntToString(timestamp) + "_" + uniqueId + "_" + SafeOriginal(filename)
  }

  /** The kept name is the safe characters of the base name, or
      `upload.csv` when there are none; it is never empty, holds only
      alphanumerics and `._-` (so no path separator), a missing name keeps
      `unknown.csv`, and an already safe base name is kept as it is. */
  lemma SafeOriginalIsSafe(filename: Option<string>)
    ensures KeepSafe(OriginalName(filename)) == "" ==> SafeOriginal(filename) == "upload.csv"
    ensures KeepSafe(OriginalName(filename)) != "" ==> SafeOriginal(filename) == KeepSafe(OriginalName(filename))
    ensures |SafeOriginal(filename)| > 0
    ensures forall i :: 0 <= i < |SafeOriginal(filename)| ==> SafeChar(SafeOriginal(filename)[i])
    ensures forall i :: 0 <= i < |SafeOriginal(filename)| ==> SafeOriginal(filename)[i] != '/'
    ensures filename.None? || filename.value == "" ==> SafeOriginal(filename) == "unknown.csv"
    ensures filename.Some? && filename.value != "" && Basename(filename.value) != "" &&
            (forall i :: 0 <= i < |Basename(filename.value)| ==> SafeChar(Basename(filename.value)[i])) ==>
              SafeOriginal(filename) == Basename(filename.value)
  {
    var upload := "upload.csv";
    assert forall i :: 0 <= i < |upload| ==> SafeChar(upload[i]);
    if filename.Some? && filename.value != "" {
      var b := Basename(filename.value);
      if forall i :: 0 <= i < |b| ==> SafeChar(b[i]) {
        KeepSafeKeepsSafe(b);
      }
    } else {
      var unknown := "unknown.csv";
      assert forall i :: 0 <= i < |unknown| ==> SafeChar(unknown[i]);
      KeepSafeKeepsSafe(unknown);
    }
  }

  // ---------------------------------------------------------------------
  // Format detection

  datatype Mode = Legacy | New

  /** `h.strip().lower()` */
  function NormalizeHeader(h: string): string { Lower(Strip(h)) }

  function Headers(fieldnames: seq<string>): (hs: seq<string>)
    ensures |hs| == |fieldnames|
  {
    seq(|fieldnames|, i requires 0 <= i < |fieldnames| => NormalizeHeader(fieldnames[i]))
  }

  /** `{"set", "profit"} ⊆ H and not {"stake", "odds"} ⊆ H` */
  predicate HasLegacy(hs: seq<string>) {
    "set" in hs && "profit" in hs && !("stake" in hs && "odds" in hs)
  }

  /** `{"stake", "odds", "profit"} ⊆ H` */
  predicate HasNew(hs: seq<string>) {
    "stake" in hs && "odds" in hs && "profit" in hs
  }

  const FormatMessage: string :=
    "CSV must match one of:\n  - legacy: set,profit\n  - new: stake,odds,profit (optional set)  " +
    "If using new format without a 'set' column, pass ?default_set=<name|id>."

  /** The header checks: no header row, or neither layout, is a 400. */
  function DetectMode(fieldnames: seq<string>): Result<Mode> {
    if |fieldnames| == 0 then Err(HttpError(400, "CSV has no header row"))
    else
      var hs := Headers(fieldnames);
      if !HasLegacy(hs) && !HasNew(hs) then Err(HttpError(400, FormatMessage))
      else Ok(if HasLegacy(hs) then Legacy else New)
  }

  /** The two layouts exclude each other; the mode is legacy exactly when
      the legacy headers are there, new exactly when the new ones are, and
      every refusal is a 400. */
  lemma DetectModeCases(fieldnames: seq<string>)
    ensures !(HasLegacy(Headers(fieldnames)) && HasNew(Headers(fieldnames)))
    ensures DetectMode(fieldnames) == Ok(Legacy) <==> |fieldnames| > 0 && HasLegacy(Headers(fieldnames))
    ensures DetectMode(fieldnames) == Ok(New) <==> |fieldnames| > 0 && HasNew(Headers(fieldnames))
    ensures DetectMode(fieldnames).Err? <==>
              |fieldnames| == 0 || (!HasLegacy(Headers(fieldnames)) && !HasNew(Headers(fieldnames)))
    ensures DetectMode(fieldnames).Err? ==> DetectMode(fieldnames).error.status == 400
  {
  }

  /** Headers are matched after stripping and lower-casing. */
  lemma HeadersNormalised(h: string, fieldnames: seq<string>)
    requires h in fieldnames
    ensures Lower(Strip(h)) in Headers(fieldnames)
  {
    var i :| 0 <= i < |fieldnames| && fieldnames[i] == h;
    assert Headers(fieldnames)[i] == Lower(Strip(h));
  }

  // ---------------------------------------------------------------------
  // Rows

  /** One CSV record as read: field names and values, either possibly
      missing. */
  type RawRow = seq<(Option<string>, Option<string>)>

  /** The normalised row: keys stripped and lower-cased, values stripped; a
      later duplicate key wins. */
  function NormalizeRow(items: RawRow): map<string, string>
    decreases |items|
  {
    if |items| == 0 then map[]
    else
      var (k, v) := items[|items| - 1];
      NormalizeRow(items[..|items| - 1])[NormalizeHeader(k.GetOr("")) := Strip(v.GetOr(""))]
  }

  function Get(row: map<string, string>, key: string): Option<string> {
    if key in row then Some(row[key]) else None
  }

  /** `not any(row.values())` */
  predicate BlankRow(row: map<string, string>) {
    forall k :: k in row ==> row[k] == ""
  }

  /** `float(row.get(key, "").replace(",", ""))`; `None` where it raises. */
  function NumberField(row: map<string, string>, key: string): Option<real> {
    ParseFloat(Remove(Get(row, key).GetOr(""), ','))
  }

  predicate IsId(k: Option<int>) { k.Some? && k.value != 0 }

  datatype RowError = UnknownSet(value: Option<string>) | MissingSet | InvalidNumber
  datatype ErrorRecord = ErrorRecord(row: nat, error: RowError)

  /** The bet `create_bet` writes for an accepted row. */
  datatype ImportedBet = ImportedBet(setId: int, stake: real, odds: Option<real>, profit: real)

  datatype RowOutcome = Blank | Refused(error: RowError) | Imported(bet: ImportedBet)

  /** What the loop body decides for one normalised row. */
  function RowOutcomeOf(row: map<string, string>, mode: Mode, sets: seq<BetSet>, defaultSetId: Option<int>): RowOutcome {
    if BlankRow(row) then Blank
    else if mode == Legacy then
      var setId := ResolveSetId(sets, Get(row, "set"));
      if !IsId(setId) then Refused(UnknownSet(Get(row, "set")))
      else match NumberField(row, "profit")
        case None => Refused(InvalidNumber)
        case Some(profit) => Imported(ImportedBet(setId.value, 0.0, None, Round2(profit)))
    else
      var rowSet := ResolveSetId(sets, Get(row, "set"));
      var setId := if IsId(rowSet) then rowSet else defaultSetId;
      if !IsId(setId) then Refused(MissingSet)
      else
        var stake := NumberField(row, "stake");
        var odds := NumberField(row, "odds");
        var profit := NumberField(row, "profit");
        if stake.None? || odds.None? || profit.None? then Refused(InvalidNumber)
        else Imported(ImportedBet(setId.value, stake.value, Some(odds.value), Round2(profit.value)))
  }

  /** The response counters and the bets written. */
  datatype Tally = Tally(totalRows: nat, inserted: nat, skipped: nat, errors: seq<ErrorRecord>, created: seq<ImportedBet>)

  /** One step of the loop; the row number counts from 2 (the header is 1). */
  function Step(t: Tally, o: RowOutcome, rowNumber: nat, dryRun: bool): Tally {
    match o
    case Blank => t
    case Refused(e) => Tally(t.totalRows + 1, t.inserted, t.skipped + 1, t.errors + [ErrorRecord(rowNumber, e)], t.created)
    case Imported(b) =>
      if dryRun then Tally(t.totalRows + 1, t.inserted, t.skipped, t.errors, t.created)
      else Tally(t.totalRows + 1, t.inserted + 1, t.skipped, t.errors, t.created + [b])
  }

  /** The counters after a run of outcomes, the first of which is row 2. */
  function TallyOf(os: seq<RowOutcome>, dryRun: bool): Tally
    decreases |os|
  {
    if |os| == 0 then Tally(0, 0, 0, [], [])
    else Step(TallyOf(os[..|os| - 1], dryRun), os[|os| - 1], |os| + 1, dryRun)
  }

  function Outcomes(rows: seq<map<string, string>>, mode: Mode, sets: seq<BetSet>, defaultSetId: Option<int>): (os: seq<RowOutcome>)
    ensures |os| == |rows|
  {
    seq(|rows|, i requires 0 <= i < |rows| => RowOutcomeOf(rows[i], mode, sets, defaultSetId))
  }

  /** One more outcome is one more step of the counters. */
  lemma TallyStep(os: seq<RowOutcome>, i: nat, dryRun: bool)
    requires i < |os|
    ensures TallyOf(os[..i + 1], dryRun) == Step(TallyOf(os[..i], dryRun), os[i], i + 2, dryRun)
  {
    assert os[..i + 1][..i] == os[..i];
  }

  /** Independent count of the non-blank outcomes. */
  function CountCounted(os: seq<RowOutcome>): nat
    decreases |os|
  {
    if |os| == 0 then 0 else CountCounted(os[..|os| - 1]) + (if os[|os| - 1].Blank? then 0 else 1)
  }

  /** Every skip comes with one error and every insert with one written bet;
      blank rows are not counted; a dry run inserts and writes nothing; a
      real run inserts or skips every counted row. */
  lemma {:induction false} TallyCounts(os: seq<RowOutcome>, dryRun: bool)
    ensures var t := TallyOf(os, dryRun);
            |t.errors| == t.skipped && |t.created| == t.inserted &&
            t.totalRows == CountCounted(os) && t.skipped <= t.totalRows &&
            (dryRun ==> t.inserted == 0 && t.created == []) &&
            (!dryRun ==> t.inserted + t.skipped == t.totalRows)
    decreases |os|
  {
    if |os| > 0 {
      TallyCounts(os[..|os| - 1], dryRun);
    }
  }

  /** Error records name rows in increasing order, all between 2 and the
      last row number. */
  lemma {:induction false} ErrorRowsIncrease(os: seq<RowOutcome>, dryRun: bool)
    ensures var es := TallyOf(os, dryRun).errors;
            (forall i :: 0 <= i < |es| ==> 2 <= es[i].row <= |os| + 1) &&
            (forall i, j :: 0 <= i < j < |es| ==> es[i].row < es[j].row)
    decreases |os|
  {
    if |os| > 0 {
      var n := |os| - 1;
      ErrorRowsIncrease(os[..n], dryRun);
      var pre := TallyOf(os[..n], dryRun).errors;
      var es := TallyOf(os, dryRun).errors;
      assert TallyOf(os, dryRun) == Step(TallyOf(os[..n], dryRun), os[n], n + 2, dryRun);
      if os[n].Refused? {
        assert es == pre + [ErrorRecord(n + 2, os[n].error)];
        assert forall i :: 0 <= i < |pre| ==> es[i] == pre[i];
      } else {
        assert es == pre;
      }
    }
  }

  /** Legacy rows are written with stake 0 and no odds; new-format rows with
      the parsed stake and odds and the row's set, or else the default set.
      Profit is the parsed value rounded to cents, and the set is non-zero. */
  lemma ImportedRowFields(row: map<string, string>, mode: Mode, sets: seq<BetSet>, defaultSetId: Option<int>)
    ensures var o := RowOutcomeOf(row, mode, sets, defaultSetId);
            o.Imported? ==>
              o.bet.setId != 0 && !BlankRow(row) &&
              NumberField(row, "profit").Some? && o.bet.profit == Round2(NumberField(row, "profit").value) &&
              (mode == Legacy ==>
                 o.bet.stake == 0.0 && o.bet.odds.None? && Some(o.bet.setId) == ResolveSetId(sets, Get(row, "set"))) &&
              (mode == New ==>
                 Some(o.bet.stake) == NumberField(row, "stake") && o.bet.odds == NumberField(row, "odds") &&
                 Some(o.bet.setId) == (if IsId(ResolveSetId(sets, Get(row, "set"))) then ResolveSetId(sets, Get(row, "set"))
                                       else defaultSetId))
  {
  }

  /** A non-blank row is refused for its set before its numbers are read. */
  lemma SetCheckedFirst(row: map<string, string>, mode: Mode, sets: seq<BetSet>, defaultSetId: Option<int>)
    requires !BlankRow(row)
    ensures mode == Legacy && !IsId(ResolveSetId(sets, Get(row, "set"))) ==>
              RowOutcomeOf(row, mode, sets, defaultSetId) == Refused(UnknownSet(Get(row, "set")))
    ensures mode == New && !IsId(ResolveSetId(sets, Get(row, "set"))) && !IsId(defaultSetId) ==>
              RowOutcomeOf(row, mode, sets, defaultSetId) == Refused(MissingSet)
  {
  }

  // ---------------------------------------------------------------------
  // The endpoint

  datatype ImportResult = ImportResult(filename: Option<string>, mode: Mode, dryRun: bool, tally: Tally,
                                       fileSaved: Option<string>)

  /** Specification of `import_csv` once the upload is decoded into field
      names and records. */
  function ImportSpec(filename: Option<string>, fieldnames: seq<string>, records: seq<RawRow>, dryRun: bool,
                      defaultSet: Option<string>, sets: seq<BetSet>, timestamp: int, uniqueId: string): Result<ImportResult>
  {
    match DetectMode(fieldnames)
    case Err(e) => Err(e)
    case Ok(mode) =>
      var rows := seq(|records|, i requires 0 <= i < |records| => NormalizeRow(records[i]));
      var defaultSetId := if defaultSet.Some? && defaultSet.value != "" then ResolveSetId(sets, defaultSet) else None;
      Ok(ImportResult(filename, mode, dryRun, TallyOf(Outcomes(rows, mode, sets, defaultSetId), dryRun),
                      if dryRun then None else Some(StoredCsvPath(timestamp, uniqueId, filename))))
  }

  /** The loop over the normalised rows, updating the response counters. */
  method ImportRows(rows: seq<map<string, string>>, mode: Mode, dryRun: bool, sets: seq<BetSet>, defaultSetId: Option<int>)
    returns (t: Tally)
    ensures t == TallyOf(Outcomes(rows, mode, sets, defaultSetId), dryRun)
  {
    ghost var os := Outcomes(rows, mode, sets, defaultSetId);
    var totalRows, inserted, skipped := 0, 0, 0;
    var errors: seq<ErrorRecord> := [];
    var created: seq<ImportedBet> := [];
    for i := 0 to |rows|
      invariant Tally(totalRows, inserted, skipped, errors, created) == TallyOf(os[..i], dryRun)
    {
      TallyStep(os, i, dryRun);
      var o := RowOutcomeOf(rows[i], mode, sets, defaultSetId);
      assert o == os[i];
      match o {
        case Blank =>
        case Refused(e) =>
          totalRows := totalRows + 1;
          skipped := skipped + 1;
          errors := errors + [ErrorRecord(i + 2, e)];
        case Imported(b) =>
          totalRows := totalRows + 1;
          if !dryRun {
            created := created + [b];
            inserted := inserted + 1;
          }
      }
    }
    assert os[..|rows|] == os;
    t := Tally(totalRows, inserted, skipped, errors, created);
  }

  /** `import_csv` */
  method ImportCsv(filename: Option<string>, fieldnames: seq<string>, records: seq<RawRow>, dryRun: bool,
                   defaultSet: Option<string>, sets: seq<BetSet>, timestamp: int, uniqueId: string)
    returns (r: Result<ImportResult>)
    ensures r == ImportSpec(filename, fieldnames, records, dryRun, defaultSet, sets, timestamp, uniqueId)
  {
    var fileSaved: Option<string> := None;
    if !dryRun {
      fileSaved := Some(StoredCsvPath(timestamp, uniqueId, filename));
    }
    var detected := DetectMode(fieldnames);
    if detected.Err? {
      return Err(detected.error);
    }
    var mode := detected.value;
    var rows := seq(|records|, i requires 0 <= i < |records| => NormalizeRow(records[i]));
    var defaultSetId: Option<int> := None;
    if defaultSet.Some? && defaultSet.value != "" {
      defaultSetId := ResolveSetId(sets, defaultSet);
    }
    var t := ImportRows(rows, mode, dryRun, sets, defaultSetId);
    r := Ok(ImportResult(filename, mode, dryRun, t, fileSaved));
  }

  /** End to end: a refused header is a 400; otherwise the counters keep the
      identities of the row loop, and a file is saved exactly on a real run. */
  lemma ImportInvariants(filename: Option<string>, fieldnames: seq<string>, records: seq<RawRow>, dryRun: bool,
                         defaultSet: Option<string>, sets: seq<BetSet>, timestamp: int, uniqueId: string)
    ensures var r := ImportSpec(filename, fieldnames, records, dryRun, defaultSet, sets, timestamp, uniqueId);
            (r.Err? <==> DetectMode(fieldnames).Err?) &&
            (r.Err? ==> r.error.status == 400) &&
            (r.Ok? ==>
               var t := r.value.tally;
               |t.errors| == t.skipped && t.totalRows <= |records| &&
               (dryRun ==> t.inserted == 0 && r.value.fileSaved.None?) &&
               (!dryRun ==> t.inserted + t.skipped == t.totalRows && r.value.fileSaved.Some?))
  {
    DetectModeCases(fieldnames);
    if DetectMode(fieldnames).Ok? {
      var mode := DetectMode(fieldnames).value;
      var rows := seq(|records|, i requires 0 <= i < |records| => NormalizeRow(records[i]));
      var defaultSetId := if defaultSet.Some? && defaultSet.value != "" then ResolveSetId(sets, defaultSet) else None;
      var os := Outcomes(rows, mode, sets, defaultSetId);
      TallyCounts(os, dryRun);
      CountedAtMost(os);
    }
  }

  lemma {:induction false} CountedAtMost(os: seq<RowOutcome>)
    ensures CountCounted(os) <= |os|
    decreases |os|
  {
    if |os| > 0 {
      CountedAtMost(os[..|os| - 1]);
    }
  }
}
