/** The edit and delete handlers: who may change a stored bet, the
    in-place update of its fields, when the profit is recomputed, and who
    may delete it. */
module BetEdit {
  import opened Wrappers
  import opened Profit
  import opened BetUpload

  /** The stored row as `update_bet` and `delete_bet` see it; `bookmaker` is
      the joined bookmaker's name, `None` when the join finds none. */
  datatype BetRow = BetRow(
    uploadedBy: int,
    uploadedAt: real,
    imagePath: string,
    bookmaker: Option<string>,
    betType: Option<string>,
    oddsNumeric: Option<real>,
    stakeManual: real,
    potentialReturn: Option<real>,
    resultStatus: Option<string>,
    cashoutAmount: Option<real>,
    commissionRate: Option<real>,
    profit: real,
    lastEditedBy: Option<int>,
    lastEditedAt: Option<real>)

  /** The row a freshly uploaded record becomes. */
  function RowOf(rec: BetRecord): BetRow {
    BetRow(rec.uploadedBy, rec.uploadedAt, rec.imagePath, Some(rec.bookmakerName), Some(rec.betType),
           rec.oddsNumeric, rec.stakeManual, rec.potentialReturn, rec.resultStatus, rec.cashoutAmount,
           rec.commissionRate, rec.profit, rec.lastEditedBy, rec.lastEditedAt)
  }

  /** The editable fields. */
  datatype FieldKey = StakeKey | OddsKey | ReturnKey | StatusKey | TypeKey

  /** One entry of `bet_update.model_dump(exclude_unset=True)`. */
  datatype FieldValue =
    | StakeManual(stake: real)
    | OddsNumeric(odds: Option<real>)
    | PotentialReturn(ret: Option<real>)
    | ResultStatus(status: Option<string>)
    | BetType(betType: Option<string>)

  function KeyOf(f: FieldValue): FieldKey {
    match f
    case StakeManual(_) => StakeKey
    case OddsNumeric(_) => OddsKey
    case PotentialReturn(_) => ReturnKey
    case ResultStatus(_) => StatusKey
    case BetType(_) => TypeKey
  }

  /** The current value of an editable field. */
  function FieldOf(row: BetRow, k: FieldKey): (f: FieldValue)
    ensures KeyOf(f) == k
  {
    match k
    case StakeKey => StakeManual(row.stakeManual)
    case OddsKey => OddsNumeric(row.oddsNumeric)
    case ReturnKey => PotentialReturn(row.potentialReturn)
    case StatusKey => ResultStatus(row.resultStatus)
    case TypeKey => BetType(row.betType)
  }

  /** `setattr(bet, field, value)` */
  function SetField(row: BetRow, f: FieldValue): BetRow {
    match f
    case StakeManual(x) => row.(stakeManual := x)
    case OddsNumeric(x) => row.(oddsNumeric := x)
    case PotentialReturn(x) => row.(potentialReturn := x)
    case ResultStatus(x) => row.(resultStatus := x)
    case BetType(x) => row.(betType := x)
  }

  /** The `setattr` loop over the update, in order. */
  function Apply(row: BetRow, u: seq<FieldValue>): BetRow
    decreases |u|
  {
    if |u| == 0 then row else SetField(Apply(row, u[..|u| - 1]), u[|u| - 1])
  }

  /** The position of the last entry of `u` for field `k`, or -1 when the
      update does not mention it. */
  function LastIndexFor(u: seq<FieldValue>, k: FieldKey): (i: int)
    ensures -1 <= i < |u|
    ensures i >= 0 ==> KeyOf(u[i]) == k
    ensures forall j :: i < j < |u| ==> KeyOf(u[j]) != k
    decreases |u|
  {
    if |u| == 0 then -1
    else if KeyOf(u[|u| - 1]) == k then |u| - 1
    else LastIndexFor(u[..|u| - 1], k)
  }

  /** The last entry of `u` for field `k`, if any. */
  function LastFor(u: seq<FieldValue>, k: FieldKey): (r: Option<FieldValue>)
    ensures r.Some? ==> KeyOf(r.value) == k
  {
    var i := LastIndexFor(u, k);
    if i < 0 then None else Some(u[i])
  }

  /** After the loop each editable field holds the last value the update
      gave it, or its old value when the update does not mention it. */
  lemma {:induction false} ApplyLastWins(row: BetRow, u: seq<FieldValue>, k: FieldKey)
    ensures FieldOf(Apply(row, u), k) == LastFor(u, k).GetOr(FieldOf(row, k))
    decreases |u|
  {
    if |u| > 0 {
      var p := u[..|u| - 1];
      ApplyLastWins(row, p, k);
      SetFieldOf(Apply(row, p), u[|u| - 1], k);
      if KeyOf(u[|u| - 1]) != k {
        var i := LastIndexFor(p, k);
        assert LastIndexFor(u, k) == i;
        if i >= 0 {
          assert u[i] == p[i];
        }
      }
    }
  }

  /** One `setattr` changes exactly the field it names. */
  lemma SetFieldOf(row: BetRow, f: FieldValue, k: FieldKey)
    ensures FieldOf(SetField(row, f), k) == if KeyOf(f) == k then f else FieldOf(row, k)
  {
  }

  /** The loop touches only the editable fields. */
  lemma {:induction false} ApplyKeepsOthers(row: BetRow, u: seq<FieldValue>)
    ensures var a := Apply(row, u);
            a.uploadedBy == row.uploadedBy && a.uploadedAt == row.uploadedAt && a.imagePath == row.imagePath &&
            a.bookmaker == row.bookmaker && a.cashoutAmount == row.cashoutAmount &&
            a.commissionRate == row.commissionRate && a.profit == row.profit &&
            a.lastEditedBy == row.lastEditedBy && a.lastEditedAt == row.lastEditedAt
    decreases |u|
  {
    if |u| > 0 {
      ApplyKeepsOthers(row, u[..|u| - 1]);
    }
  }

  /** A field whose change makes `update_bet` recompute the profit. */
  predicate ProfitInput(k: FieldKey) {
    k == StakeKey || k == OddsKey || k == StatusKey
  }

  /** `any(field in update_data for field in ['stake_manual', 'odds_numeric', 'result_status'])` */
  predicate TouchesProfit(u: seq<FieldValue>) {
    exists i :: 0 <= i < |u| && ProfitInput(KeyOf(u[i]))
  }

  /** The profit `update_bet` recomputes from the edited row. */
  function RecomputedProfit(bookmaker: string, row: BetRow): real {
    ComputeProfit(bookmaker, Some(BetTypeOf(row.betType)), row.oddsNumeric, row.stakeManual,
                  row.resultStatus, row.cashoutAmount, Some(row.commissionRate.GetOr(0.0)))
  }

  /** Only the owner or an admin may edit. */
  predicate CanEdit(row: BetRow, userId: int, role: string) {
    row.uploadedBy == userId || role == "admin"
  }

  const NotFound := HttpError(404, "Bet not found")
  const EditForbidden := HttpError(403, "Can only edit your own bets")

  /** `update_bet` on a found row: the permission check, the `setattr`
      loop, the conditional recompute and the edit marks. */
  function EditSpec(row: BetRow, userId: int, role: string, u: seq<FieldValue>, now: real): Result<BetRow> {
    if !CanEdit(row, userId, role) then Err(EditForbidden)
    else
      var a := Apply(row, u);
      var b := if TouchesProfit(u) && a.bookmaker.Some? then a.(profit := RecomputedProfit(a.bookmaker.value, a)) else a;
      Ok(b.(lastEditedBy := Some(userId), lastEditedAt := Some(now)))
  }

  /** `update_bet`: 404 before 403 before the edit. */
  function UpdateSpec(found: Option<BetRow>, userId: int, role: string, u: seq<FieldValue>, now: real): Result<BetRow> {
    match found
    case None => Err(NotFound)
    case Some(row) => EditSpec(row, userId, role, u, now)
  }

  /** The outcome of an edit: refused exactly for someone who is neither the
      owner nor an admin; on success the update's values are in place, the
      profit is recomputed exactly when a profit input is in the update and
      the bookmaker is known (and kept otherwise), the editor and time are
      recorded, and nothing else changes. */
  lemma EditOutcome(row: BetRow, userId: int, role: string, u: seq<FieldValue>, now: real)
    ensures EditSpec(row, userId, role, u, now).Err? <==> !CanEdit(row, userId, role)
    ensures EditSpec(row, userId, role, u, now).Err? ==> EditSpec(row, userId, role, u, now).error.status == 403
    ensures var r := EditSpec(row, userId, role, u, now);
            r.Ok? ==>
              (forall k :: FieldOf(r.value, k) == LastFor(u, k).GetOr(FieldOf(row, k))) &&
              r.value.uploadedBy == row.uploadedBy && r.value.uploadedAt == row.uploadedAt &&
              r.value.imagePath == row.imagePath && r.value.bookmaker == row.bookmaker &&
              r.value.cashoutAmount == row.cashoutAmount && r.value.commissionRate == row.commissionRate &&
              r.value.lastEditedBy == Some(userId) && r.value.lastEditedAt == Some(now)
    ensures var r := EditSpec(row, userId, role, u, now);
            r.Ok? ==>
              r.value.profit == if TouchesProfit(u) && row.bookmaker.Some?
                                then RecomputedProfit(row.bookmaker.value, Apply(row, u))
                                else row.profit
  {
    ApplyKeepsOthers(row, u);
    var a := Apply(row, u);
    forall k {
      ApplyLastWins(row, u, k);
    }
    if CanEdit(row, userId, role) {
      var r := EditSpec(row, userId, role, u, now).value;
      forall k ensures FieldOf(r, k) == FieldOf(a, k) {
      }
    }
  }

  /** An edit that only changes the potential return or the bet type keeps
      the profit, even where a new bet type would settle differently. */
  lemma EditWithoutProfitInputKeepsProfit(row: BetRow, userId: int, role: string, u: seq<FieldValue>, now: real)
    requires forall i :: 0 <= i < |u| ==> KeyOf(u[i]) == ReturnKey || KeyOf(u[i]) == TypeKey
    ensures var r := EditSpec(row, userId, role, u, now);
            r.Ok? ==> r.value.profit == row.profit
  {
    EditOutcome(row, userId, role, u, now);
  }

  /** A stored bet as the object `update_bet` changes in place. */
  class Bet {
    var uploadedBy: int
    var uploadedAt: real
    var imagePath: string
    var bookmaker: Option<string>
    var betType: Option<string>
    var oddsNumeric: Option<real>
    var stakeManual: real
    var potentialReturn: Option<real>
    var resultStatus: Option<string>
    var cashoutAmount: Option<real>
    var commissionRate: Option<real>
    var profit: real
    var lastEditedBy: Option<int>
    var lastEditedAt: Option<real>

    /** The object loaded for `row`. */
    constructor (row: BetRow)
      ensures Row() == row
    {
      uploadedBy := row.uploadedBy;
      uploadedAt := row.uploadedAt;
      imagePath := row.imagePath;
      bookmaker := row.bookmaker;
      betType := row.betType;
      oddsNumeric := row.oddsNumeric;
      stakeManual := row.stakeManual;
      potentialReturn := row.potentialReturn;
      resultStatus := row.resultStatus;
      cashoutAmount := row.cashoutAmount;
      commissionRate := row.commissionRate;
      profit := row.profit;
      lastEditedBy := row.lastEditedBy;
      lastEditedAt := row.lastEditedAt;
    }

    function Row(): BetRow
      reads this
    {
      BetRow(uploadedBy, uploadedAt, imagePath, bookmaker, betType, oddsNumeric, stakeManual,
             potentialReturn, resultStatus, cashoutAmount, commissionRate, profit, lastEditedBy, lastEditedAt)
    }

    /** `for field, value in update_data.items(): setattr(bet, field, value)` */
    method SetFields(u: seq<FieldValue>)
      modifies this
      ensures Row() == Apply(old(Row()), u)
    {
      ghost var start := Row();
      for i := 0 to |u|
        invariant Row() == Apply(start, u[..i])
      {
        assert u[..i + 1][..i] == u[..i];
        match u[i]
        case StakeManual(x) => stakeManual := x;
        case OddsNumeric(x) => oddsNumeric := x;
        case PotentialReturn(x) => potentialReturn := x;
        case ResultStatus(x) => resultStatus := x;
        case BetType(x) => betType := x;
      }
      assert u[..|u|] == u;
    }

    /** The body of `update_bet` once the bet is found. */
    method Edit(userId: int, role: string, u: seq<FieldValue>, now: real) returns (r: Result<BetRow>)
      modifies this
      ensures r == EditSpec(old(Row()), userId, role, u, now)
      ensures Row() == if r.Ok? then r.value else old(Row())
    {
      if uploadedBy != userId && role != "admin" {
        return Err(EditForbidden);
      }
      SetFields(u);
      var touched := false;
      for i := 0 to |u|
        invariant touched <==> exists j :: 0 <= j < i && ProfitInput(KeyOf(u[j]))
      {
        if ProfitInput(KeyOf(u[i])) {
          touched := true;
        }
      }
      if touched && bookmaker.Some? {
        profit := ComputeProfit(bookmaker.value, Some(BetTypeOf(betType)), oddsNumeric, stakeManual,
                                resultStatus, cashoutAmount, Some(commissionRate.GetOr(0.0)));
      }
      lastEditedBy := Some(userId);
      lastEditedAt := Some(now);
      r := Ok(Row());
    }
  }

  /** `update_bet` on the row `db.query(...).first()` found, or `null`. */
  method UpdateBet(bet: Bet?, userId: int, role: string, u: seq<FieldValue>, now: real) returns (r: Result<BetRow>)
    modifies bet
    ensures r == UpdateSpec(if bet == null then None else Some(old(bet.Row())), userId, role, u, now)
    ensures bet != null ==> bet.Row() == if r.Ok? then r.value else old(bet.Row())
  {
    if bet == null {
      return Err(NotFound);
    }
    r := bet.Edit(userId, role, u, now);
  }

  /** The response of a successful delete. */
  datatype Deleted = Deleted(message: string, id: int)

  /** The owner, an admin, or anyone within 300 seconds of the upload. */
  predicate CanDelete(row: BetRow, userId: int, role: string, now: real) {
    row.uploadedBy == userId || role == "admin" || now - row.uploadedAt < 300.0
  }

  const DeleteForbidden := HttpError(403, "Cannot delete this bet")

  /** `delete_bet`'s answer for the row found under `betId`. */
  function DeleteSpec(found: Option<BetRow>, betId: int, userId: int, role: string, now: real): Result<Deleted> {
    match found
    case None => Err(NotFound)
    case Some(row) =>
      if !CanDelete(row, userId, role, now) then Err(DeleteForbidden)
      else Ok(Deleted("Bet deleted successfully", betId))
  }

  /** A delete succeeds exactly for a found bet that the user owns, that an
      admin deletes, or that is less than five minutes old; a missing bet is
      404 and a refusal 403. Anyone who may edit a bet may delete it. */
  lemma DeleteOutcome(found: Option<BetRow>, betId: int, userId: int, role: string, now: real)
    ensures DeleteSpec(found, betId, userId, role, now).Ok? <==>
              found.Some? && (found.value.uploadedBy == userId || role == "admin" || now - found.value.uploadedAt < 300.0)
    ensures found.None? ==> DeleteSpec(found, betId, userId, role, now) == Err(HttpError(404, "Bet not found"))
    ensures found.Some? && !CanDelete(found.value, userId, role, now) ==>
              DeleteSpec(found, betId, userId, role, now).error.status == 403
    ensures DeleteSpec(found, betId, userId, role, now).Ok? ==>
              DeleteSpec(found, betId, userId, role, now).value == Deleted("Bet deleted successfully", betId)
    ensures found.Some? && CanEdit(found.value, userId, role) ==> DeleteSpec(found, betId, userId, role, now).Ok?
  {
  }

  /** Within five minutes of the upload any user may delete the bet, though
      only its owner or an admin may edit it. */
  lemma FreshUploadDeletableByAnyone(row: BetRow, betId: int, userId: int, role: string, now: real)
    requires now - row.uploadedAt < 300.0
    ensures DeleteSpec(Some(row), betId, userId, role, now).Ok?
    ensures !CanEdit(row, userId, role) ==> UpdateSpec(Some(row), userId, role, [], now).Err?
  {
  }
}
