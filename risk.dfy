/** The risk aggregator (`risk_stats`, once the settled bets of the window
    are in hand): per-bet profits, a daily profit series and its equity
    curve, maximum drawdown, historical 95% VaR, a per-bet Sharpe ratio and
    stake exposure by set and by bookmaker. */
module Risk {
  import opened Wrappers
  import opened Text
  import opened Money

  /** One bet row of the query: profit, manual stake, set and bookmaker ids,
      and the day (a day number) it was uploaded. */
  datatype RiskRow = RiskRow(profit: Option<real>, stake: Option<real>, setId: Option<int>,
                             bookmakerId: Option<int>, day: Option<int>)

  datatype DailyPl = DailyPl(day: int, pl: real)
  datatype Exposure = Exposure(name: string, stake: real)
  datatype RiskSummary = RiskSummary(sharpe: Option<real>, maxDrawdown: Option<real>, var95: Option<real>, n: nat)
  datatype RiskReport = RiskReport(summary: RiskSummary, dailyPl: seq<DailyPl>,
                                   exposureBySet: seq<Exposure>, exposureByBookmaker: seq<Exposure>)

  /** `float(r.profit or 0.0)` */
  function ProfitOf(r: RiskRow): real { r.profit.GetOr(0.0) }

  /** `float(r.stake_manual or 0.0)` */
  function StakeOf(r: RiskRow): real { r.stake.GetOr(0.0) }

  /** The row's day; a row without an upload time falls on `today`. */
  function DayOf(r: RiskRow, today: int): int { r.day.GetOr(today) }

  /** The two exposure groupings. */
  datatype Grouping = BySet | ByBookmaker

  function KeyOf(r: RiskRow, g: Grouping): Option<int> {
    match g
    case BySet => r.setId
    case ByBookmaker => r.bookmakerId
  }

  /** A Python truth test on an id: present and non-zero. */
  predicate IsId(k: Option<int>) { k.Some? && k.value != 0 }

  function GetOrZero(m: map<int, real>, k: int): real {
    if k in m then m[k] else 0.0
  }

  // ---------------------------------------------------------------------
  // The aggregation loop

  /** The per-bet profits, in row order. */
  function Profits(rows: seq<RiskRow>): (ps: seq<real>)
    ensures |ps| == |rows|
    decreases |rows|
  {
    if |rows| == 0 then [] else Profits(rows[..|rows| - 1]) + [ProfitOf(rows[|rows| - 1])]
  }

  /** `daily_map` after the rows: day to summed profit. */
  function DailyTotals(rows: seq<RiskRow>, today: int): map<int, real>
    decreases |rows|
  {
    if |rows| == 0 then map[]
    else
      var m := DailyTotals(rows[..|rows| - 1], today);
      var d := DayOf(rows[|rows| - 1], today);
      m[d := GetOrZero(m, d) + ProfitOf(rows[|rows| - 1])]
  }

  /** `expo_set` / `expo_bm` after the rows: id to summed stake. */
  function Exposures(rows: seq<RiskRow>, g: Grouping): map<int, real>
    decreases |rows|
  {
    if |rows| == 0 then map[]
    else
      var m := Exposures(rows[..|rows| - 1], g);
      var k := KeyOf(rows[|rows| - 1], g);
      if IsId(k) then m[k.value := GetOrZero(m, k.value) + StakeOf(rows[|rows| - 1])] else m
  }

  /** The loop over the rows, building the profit list, the daily map and
      both exposure maps. */
  method Aggregate(rows: seq<RiskRow>, today: int)
    returns (profits: seq<real>, dailyMap: map<int, real>, expoSet: map<int, real>, expoBm: map<int, real>)
    ensures profits == Profits(rows) && dailyMap == DailyTotals(rows, today)
    ensures expoSet == Exposures(rows, BySet) && expoBm == Exposures(rows, ByBookmaker)
  {
    profits := [];
    dailyMap := map[];
    expoSet := map[];
    expoBm := map[];
    for i := 0 to |rows|
      invariant profits == Profits(rows[..i]) && dailyMap == DailyTotals(rows[..i], today)
      invariant expoSet == Exposures(rows[..i], BySet) && expoBm == Exposures(rows[..i], ByBookmaker)
    {
      assert rows[..i + 1][..i] == rows[..i];
      var r := rows[i];
      var p := r.profit.GetOr(0.0);
      var s := r.stake.GetOr(0.0);
      profits := profits + [p];

      var d := r.day.GetOr(today);
      dailyMap := dailyMap[d := (if d in dailyMap then dailyMap[d] else 0.0) + p];

      if r.setId.Some? && r.setId.value != 0 {
        expoSet := expoSet[r.setId.value := (if r.setId.value in expoSet then expoSet[r.setId.value] else 0.0) + s];
      }
      if r.bookmakerId.Some? && r.bookmakerId.value != 0 {
        expoBm := expoBm[r.bookmakerId.value := (if r.bookmakerId.value in expoBm then expoBm[r.bookmakerId.value] else 0.0) + s];
      }
    }
    assert rows[..|rows|] == rows;
  }

  /** Each per-bet profit is that of its row. */
  lemma {:induction false} ProfitsAt(rows: seq<RiskRow>)
    ensures forall i :: 0 <= i < |rows| ==> Profits(rows)[i] == ProfitOf(rows[i])
    decreases |rows|
  {
    if |rows| > 0 {
      var n := |rows| - 1;
      ProfitsAt(rows[..n]);
      assert forall i :: 0 <= i < n ==> rows[..n][i] == rows[i];
    }
  }

  /** Independent reference: the profit of the rows falling on day `d`. */
  function DaySum(rows: seq<RiskRow>, today: int, d: int): real
    decreases |rows|
  {
    if |rows| == 0 then 0.0
    else DaySum(rows[..|rows| - 1], today, d) + (if DayOf(rows[|rows| - 1], today) == d then ProfitOf(rows[|rows| - 1]) else 0.0)
  }

  /** The daily map has an entry exactly for the days some row falls on, and
      that entry is the day's summed profit. */
  lemma {:induction false} DailyTotalsAreDaySums(rows: seq<RiskRow>, today: int)
    ensures forall d :: d in DailyTotals(rows, today) <==> exists i :: 0 <= i < |rows| && DayOf(rows[i], today) == d
    ensures forall d :: d in DailyTotals(rows, today) ==> DailyTotals(rows, today)[d] == DaySum(rows, today, d)
    ensures forall d :: d !in DailyTotals(rows, today) ==> DaySum(rows, today, d) == 0.0
    decreases |rows|
  {
    if |rows| > 0 {
      var n := |rows| - 1;
      DailyTotalsAreDaySums(rows[..n], today);
      forall d ensures d in DailyTotals(rows, today) <==> exists i :: 0 <= i < |rows| && DayOf(rows[i], today) == d {
        if d in DailyTotals(rows[..n], today) {
          var i :| 0 <= i < n && DayOf(rows[..n][i], today) == d;
          assert rows[..n][i] == rows[i];
        }
        if exists i :: 0 <= i < |rows| && DayOf(rows[i], today) == d {
          var i :| 0 <= i < |rows| && DayOf(rows[i], today) == d;
          if i < n { assert rows[..n][i] == rows[i]; }
        }
      }
    }
  }

  /** Independent reference: the stake of the rows whose id under `g` is `k`. */
  function KeyStake(rows: seq<RiskRow>, g: Grouping, k: int): real
    decreases |rows|
  {
    if |rows| == 0 then 0.0
    else KeyStake(rows[..|rows| - 1], g, k) + (if KeyOf(rows[|rows| - 1], g) == Some(k) then StakeOf(rows[|rows| - 1]) else 0.0)
  }

  /** The exposure map has an entry exactly for the non-zero ids some row
      carries, holding those rows' summed stake (a missing stake counts 0). */
  lemma {:induction false} ExposuresAreKeyStakes(rows: seq<RiskRow>, g: Grouping)
    ensures forall k :: k in Exposures(rows, g) <==> k != 0 && exists i :: 0 <= i < |rows| && KeyOf(rows[i], g) == Some(k)
    ensures forall k :: k in Exposures(rows, g) ==> Exposures(rows, g)[k] == KeyStake(rows, g, k)
    decreases |rows|
  {
    if |rows| > 0 {
      var n := |rows| - 1;
      ExposuresAreKeyStakes(rows[..n], g);
      forall k ensures k in Exposures(rows, g) <==> k != 0 && exists i :: 0 <= i < |rows| && KeyOf(rows[i], g) == Some(k) {
        if k in Exposures(rows[..n], g) {
          var i :| 0 <= i < n && KeyOf(rows[..n][i], g) == Some(k);
          assert rows[..n][i] == rows[i];
        }
        if k != 0 && exists i :: 0 <= i < |rows| && KeyOf(rows[i], g) == Some(k) {
          var i :| 0 <= i < |rows| && KeyOf(rows[i], g) == Some(k);
          if i < n { assert rows[..n][i] == rows[i]; }
        }
      }
      forall k | k in Exposures(rows, g) && k !in Exposures(rows[..n], g)
        ensures KeyStake(rows[..n], g, k) == 0.0
      {
        KeyStakeAbsent(rows[..n], g, k);
      }
    }
  }

  /** An id no row carries has no stake. */
  lemma {:induction false} KeyStakeAbsent(rows: seq<RiskRow>, g: Grouping, k: int)
    requires forall i :: 0 <= i < |rows| ==> KeyOf(rows[i], g) != Some(k)
    ensures KeyStake(rows, g, k) == 0.0
    decreases |rows|
  {
    if |rows| > 0 {
      KeyStakeAbsent(rows[..|rows| - 1], g, k);
    }
  }

  // ---------------------------------------------------------------------
  // Sorting keys (`sorted(... .items())`)

  lemma NonEmptyHasElement(s: set<int>)
    requires s != {}
    ensures exists y :: y in s
  {
    if forall x :: x !in s {
      assert false;
    }
  }

  /** The least element of a non-empty set, as a witness. */
  lemma {:induction false} MinOf(s: set<int>) returns (m: int)
    requires s != {}
    ensures m in s && forall x :: x in s ==> m <= x
    decreases |s|
  {
    NonEmptyHasElement(s);
    var y :| y in s;
    var rest := s - {y};
    if rest == {} {
      m := y;
      forall x | x in s ensures m <= x {
        assert x !in rest;
      }
    } else {
      var m' := MinOf(rest);
      m := if y < m' then y else m';
      forall x | x in s ensures m <= x {
        if x != y { assert x in rest; }
      }
    }
  }

  /** A non-empty set of integers has a least element. */
  lemma SetHasMin(s: set<int>)
    requires s != {}
    ensures exists m :: m in s && forall x :: x in s ==> m <= x
  {
    var m := MinOf(s);
  }

  /** The elements of a finite set of ids or days in ascending order. */
  function AscendingKeys(s: set<int>): (r: seq<int>)
    ensures |r| == |s|
    decreases |s|
  {
    if s == {} then []
    else
      SetHasMin(s);
      var m :| m in s && forall x :: x in s ==> m <= x;
      [m] + AscendingKeys(s - {m})
  }

  /** The ascending list holds exactly the set's elements, strictly increasing. */
  lemma AscendingKeysOrdered(s: set<int>)
    ensures forall x :: x in s <==> x in AscendingKeys(s)
    ensures forall i, j :: 0 <= i < j < |AscendingKeys(s)| ==> AscendingKeys(s)[i] < AscendingKeys(s)[j]
  {
    AscendingKeysMembers(s);
    AscendingKeysIncreasing(s);
  }

  /** The ascending list holds exactly the set's elements. */
  lemma {:induction false} AscendingKeysMembers(s: set<int>)
    ensures forall x :: x in s <==> x in AscendingKeys(s)
    decreases |s|
  {
    if s != {} {
      var r := AscendingKeys(s);
      var m := r[0];
      assert m in s && forall x :: x in s ==> m <= x;
      var rest := s - {m};
      assert r == [m] + AscendingKeys(rest);
      AscendingKeysMembers(rest);
      forall x ensures x in s <==> x in r {
        if x != m { assert x in s <==> x in rest; }
      }
    }
  }

  /** The ascending list is strictly increasing. */
  lemma {:induction false} AscendingKeysIncreasing(s: set<int>)
    ensures forall i, j :: 0 <= i < j < |AscendingKeys(s)| ==> AscendingKeys(s)[i] < AscendingKeys(s)[j]
    decreases |s|
  {
    if s != {} {
      var r := AscendingKeys(s);
      var m := r[0];
      assert m in s && forall x :: x in s ==> m <= x;
      var rest := s - {m};
      var t := AscendingKeys(rest);
      assert r == [m] + t;
      AscendingKeysIncreasing(rest);
      AscendingKeysMembers(rest);
      forall i, j | 0 <= i < j < |r| ensures r[i] < r[j] {
        assert r[j] == t[j - 1];
        assert t[j - 1] in rest;
        if i > 0 {
          assert r[i] == t[i - 1];
        }
      }
    }
  }

  // ---------------------------------------------------------------------
  // Daily series and equity curve

  /** `daily_pl`: one entry per day, ascending by day, the day's total
      rounded to cents. */
  function DailySeries(dailyMap: map<int, real>): (r: seq<DailyPl>)
    ensures |r| == |dailyMap|
  {
    var days := AscendingKeys(dailyMap.Keys);
    AscendingKeysOrdered(dailyMap.Keys);
    seq(|days|, k requires 0 <= k < |days| => DailyPl(days[k], Round2(dailyMap[days[k]])))
  }

  function Pls(series: seq<DailyPl>): seq<real> {
    seq(|series|, k requires 0 <= k < |series| => series[k].pl)
  }

  /** Running sums: entry i is the sum of the first i + 1 values. */
  function RunningSums(xs: seq<real>): (r: seq<real>)
    ensures |r| == |xs|
    decreases |xs|
  {
    if |xs| == 0 then [] else RunningSums(xs[..|xs| - 1]) + [Sum(xs)]
  }

  lemma {:induction false} RunningSumsAt(xs: seq<real>)
    ensures forall i :: 0 <= i < |xs| ==> RunningSums(xs)[i] == Sum(xs[..i + 1])
    decreases |xs|
  {
    if |xs| > 0 {
      var n := |xs| - 1;
      RunningSumsAt(xs[..n]);
      forall i | 0 <= i < n ensures RunningSums(xs)[i] == Sum(xs[..i + 1]) {
        assert xs[..n][..i + 1] == xs[..i + 1];
      }
      assert xs[..n + 1] == xs;
    }
  }

  /** The equity-curve loop: a running sum of the daily values. */
  method EquityCurve(pls: seq<real>) returns (curve: seq<real>)
    ensures curve == RunningSums(pls)
  {
    var cum := 0.0;
    curve := [];
    for i := 0 to |pls|
      invariant cum == Sum(pls[..i]) && curve == RunningSums(pls[..i])
    {
      assert pls[..i + 1][..i] == pls[..i];
      cum := cum + pls[i];
      curve := curve + [cum];
    }
    assert pls[..|pls|] == pls;
  }

  // ---------------------------------------------------------------------
  // Maximum drawdown

  function Max(a: real, b: real): real { if a >= b then a else b }

  /** The highest point of a non-empty curve. */
  function Peak(xs: seq<real>): real
    requires |xs| > 0
    decreases |xs|
  {
    if |xs| == 1 then xs[0] else Max(Peak(xs[..|xs| - 1]), xs[|xs| - 1])
  }

  /** The largest fall from a running peak, over a non-empty curve. */
  function DrawdownOf(xs: seq<real>): real
    requires |xs| > 0
    decreases |xs|
  {
    if |xs| == 1 then 0.0 else Max(DrawdownOf(xs[..|xs| - 1]), Peak(xs) - xs[|xs| - 1])
  }

  /** The drawdown loop: track the peak so far and the largest fall below it. */
  method MaxDrawdown(curve: seq<real>) returns (mdd: real)
    requires |curve| > 0
    ensures mdd == DrawdownOf(curve)
  {
    var peak := curve[0];
    mdd := 0.0;
    for i := 0 to |curve|
      invariant i == 0 ==> peak == curve[0] && mdd == 0.0
      invariant i > 0 ==> peak == Peak(curve[..i]) && mdd == DrawdownOf(curve[..i])
    {
      assert curve[..i + 1][..i] == curve[..i];
      var v := curve[i];
      if v > peak {
        peak := v;
      }
      var drawdown := peak - v;
      if drawdown > mdd {
        mdd := drawdown;
      }
    }
    assert curve[..|curve|] == curve;
  }

  /** The peak bounds every point and is one of them. */
  lemma {:induction false} PeakIsMax(xs: seq<real>)
    requires |xs| > 0
    ensures forall i :: 0 <= i < |xs| ==> xs[i] <= Peak(xs)
    ensures exists i :: 0 <= i < |xs| && xs[i] == Peak(xs)
    decreases |xs|
  {
    if |xs| > 1 {
      var n := |xs| - 1;
      var pre := xs[..n];
      PeakIsMax(pre);
      forall i | 0 <= i < |xs| ensures xs[i] <= Peak(xs) {
        if i < n { assert pre[i] == xs[i]; }
      }
      if Peak(pre) < xs[n] {
        assert xs[n] == Peak(xs);
      } else {
        var i :| 0 <= i < n && pre[i] == Peak(pre);
        assert xs[i] == Peak(xs);
      }
    } else {
      assert xs[0] == Peak(xs);
    }
  }

  /** The maximum drawdown is never negative, bounds the fall from every
      point to every later point, and is attained by one such fall. */
  lemma DrawdownIsLargestFall(xs: seq<real>)
    requires |xs| > 0
    ensures DrawdownOf(xs) >= 0.0
    ensures forall i, j :: 0 <= i <= j < |xs| ==> xs[i] - xs[j] <= DrawdownOf(xs)
    ensures exists i, j :: 0 <= i <= j < |xs| && xs[i] - xs[j] == DrawdownOf(xs)
  {
    DrawdownBoundsFalls(xs);
    DrawdownAttained(xs);
  }

  /** No fall from a point to a later one exceeds the maximum drawdown. */
  lemma {:induction false} DrawdownBoundsFalls(xs: seq<real>)
    requires |xs| > 0
    ensures DrawdownOf(xs) >= 0.0
    ensures forall i, j :: 0 <= i <= j < |xs| ==> xs[i] - xs[j] <= DrawdownOf(xs)
    decreases |xs|
  {
    if |xs| > 1 {
      var n := |xs| - 1;
      var pre := xs[..n];
      DrawdownBoundsFalls(pre);
      PeakIsMax(xs);
      forall i, j | 0 <= i <= j < |xs| ensures xs[i] - xs[j] <= DrawdownOf(xs) {
        if j < n {
          assert pre[i] == xs[i] && pre[j] == xs[j];
          assert pre[i] - pre[j] <= DrawdownOf(pre);
        }
      }
    }
  }

  /** Some fall from a point to a later one equals the maximum drawdown. */
  lemma {:induction false} DrawdownAttained(xs: seq<real>)
    requires |xs| > 0
    ensures exists i, j :: 0 <= i <= j < |xs| && xs[i] - xs[j] == DrawdownOf(xs)
    decreases |xs|
  {
    if |xs| == 1 {
      assert DrawdownOf(xs) == 0.0;
      assert xs[0] - xs[0] == DrawdownOf(xs);
    } else {
      var n := |xs| - 1;
      var pre := xs[..n];
      if DrawdownOf(pre) >= Peak(xs) - xs[n] {
        DrawdownAttained(pre);
        var i, j :| 0 <= i <= j < n && pre[i] - pre[j] == DrawdownOf(pre);
        assert pre[i] == xs[i] && pre[j] == xs[j];
        assert xs[i] - xs[j] == DrawdownOf(xs);
      } else {
        PeakIsMax(xs);
        var i :| 0 <= i < |xs| && xs[i] == Peak(xs);
        assert xs[i] - xs[n] == DrawdownOf(xs);
      }
    }
  }

  // ---------------------------------------------------------------------
  // Value at risk

  predicate SortedAsc(xs: seq<real>) {
    forall i, j :: 0 <= i < j < |xs| ==> xs[i] <= xs[j]
  }

  function Insert(x: real, xs: seq<real>): (r: seq<real>)
    ensures |r| == |xs| + 1
    decreases |xs|
  {
    if |xs| == 0 then [x]
    else if x <= xs[0] then [x] + xs
    else [xs[0]] + Insert(x, xs[1..])
  }

  /** Inserting a value no smaller than `lo` among values no smaller than
      `lo` keeps them all no smaller than `lo`. */
  lemma {:induction false} InsertLowerBound(lo: real, x: real, xs: seq<real>)
    requires lo <= x && forall k :: 0 <= k < |xs| ==> lo <= xs[k]
    ensures forall k :: 0 <= k < |Insert(x, xs)| ==> lo <= Insert(x, xs)[k]
    decreases |xs|
  {
    if |xs| > 0 && x > xs[0] {
      InsertLowerBound(lo, x, xs[1..]);
    }
  }

  /** Insertion into a sorted list keeps it sorted. */
  lemma {:induction false} InsertKeepsSorted(x: real, xs: seq<real>)
    requires SortedAsc(xs)
    ensures SortedAsc(Insert(x, xs))
    decreases |xs|
  {
    if |xs| > 0 {
      var r := Insert(x, xs);
      if x <= xs[0] {
        forall i, j | 0 <= i < j < |r| ensures r[i] <= r[j] {
          assert r[j] == xs[j - 1];
          if i > 0 { assert r[i] == xs[i - 1]; }
        }
      } else {
        var tail := xs[1..];
        assert forall k :: 0 <= k < |tail| ==> tail[k] == xs[k + 1];
        InsertKeepsSorted(x, tail);
        InsertLowerBound(xs[0], x, tail);
        var rest := Insert(x, tail);
        forall i, j | 0 <= i < j < |r| ensures r[i] <= r[j] {
          assert r[j] == rest[j - 1];
          if i > 0 { assert r[i] == rest[i - 1]; }
        }
      }
    }
  }

  /** Insertion adds exactly one occurrence of `x`. */
  lemma {:induction false} InsertAddsOne(x: real, xs: seq<real>)
    ensures multiset(Insert(x, xs)) == multiset(xs) + multiset{x}
    decreases |xs|
  {
    if |xs| > 0 {
      assert xs == [xs[0]] + xs[1..];
      if x > xs[0] {
        InsertAddsOne(x, xs[1..]);
      }
    }
  }

  /** `sorted(profits)` */
  function SortReals(xs: seq<real>): (r: seq<real>)
    ensures |r| == |xs|
    decreases |xs|
  {
    if |xs| == 0 then [] else Insert(xs[0], SortReals(xs[1..]))
  }

  /** The sort orders its input and keeps its elements. */
  lemma SortRealsSorts(xs: seq<real>)
    ensures SortedAsc(SortReals(xs)) && multiset(SortReals(xs)) == multiset(xs)
  {
    SortRealsSorted(xs);
    SortRealsPermutes(xs);
  }

  lemma {:induction false} SortRealsSorted(xs: seq<real>)
    ensures SortedAsc(SortReals(xs))
    decreases |xs|
  {
    if |xs| > 0 {
      SortRealsSorted(xs[1..]);
      InsertKeepsSorted(xs[0], SortReals(xs[1..]));
    }
  }

  lemma {:induction false} SortRealsPermutes(xs: seq<real>)
    ensures multiset(SortReals(xs)) == multiset(xs)
    decreases |xs|
  {
    if |xs| > 0 {
      var t := SortReals(xs[1..]);
      SortRealsPermutes(xs[1..]);
      InsertAddsOne(xs[0], t);
      assert xs == [xs[0]] + xs[1..];
      assert multiset(xs) == multiset{xs[0]} + multiset(xs[1..]);
    }
  }

  /** `int(0.05 * (n - 1))`: 0.05 is stored slightly above 1/20, so the
      product never falls below a whole number it reaches. */
  function VarIndex(n: nat): (k: nat)
    requires n > 0
    ensures k < n
  {
    (n - 1) / 20
  }

  /** `round(sorted_p[int(0.05 * (n - 1))], 2)` */
  function Var95(profits: seq<real>): real
    requires |profits| > 0
  {
    Round2(SortReals(profits)[VarIndex(|profits|)])
  }

  /** VaR is the rounded value of one of the profits; with at most 20 bets it
      is the rounded smallest profit. */
  lemma Var95Picks(profits: seq<real>)
    requires |profits| > 0
    ensures exists i :: 0 <= i < |profits| && Var95(profits) == Round2(profits[i])
    ensures |profits| <= 20 ==>
              exists i :: 0 <= i < |profits| && Var95(profits) == Round2(profits[i]) &&
                          forall j :: 0 <= j < |profits| ==> profits[i] <= profits[j]
  {
    var s := SortReals(profits);
    SortRealsSorts(profits);
    var k := VarIndex(|profits|);
    assert s[k] in multiset(s);
    assert s[k] in multiset(profits);
    var i :| 0 <= i < |profits| && profits[i] == s[k];
    if |profits| <= 20 {
      assert k == 0;
      forall j | 0 <= j < |profits| ensures profits[i] <= profits[j] {
        assert profits[j] in multiset(s);
        var m :| 0 <= m < |s| && s[m] == profits[j];
      }
    }
  }

  // ---------------------------------------------------------------------
  // Sharpe ratio

  function Mean(xs: seq<real>): real
    requires |xs| > 0
  {
    Sum(xs) / |xs| as real
  }

  /** The sum of squared deviations of `xs` from `m`. */
  function SquaredDeviations(xs: seq<real>, m: real): real
    decreases |xs|
  {
    if |xs| == 0 then 0.0 else SquaredDeviations(xs[..|xs| - 1], m) + (xs[|xs| - 1] - m) * (xs[|xs| - 1] - m)
  }

  /** The sample variance (denominator n - 1). */
  function Variance(xs: seq<real>): real
    requires |xs| > 1
  {
    SquaredDeviations(xs, Mean(xs)) / (|xs| - 1) as real
  }

  /** `round(mean / std, 3)` when there are two or more bets and the standard
      deviation (`sqrt` of a positive variance, else 0) is positive. */
  function Sharpe(profits: seq<real>, sqrt: real -> real): Option<real> {
    if |profits| > 1 then
      var mean := Mean(profits);
      var variance := Variance(profits);
      var std := if variance > 0.0 then sqrt(variance) else 0.0;
      if std > 0.0 then Some(Round3(mean / std)) else None
    else None
  }

  /** Values all equal to `m` deviate from it by nothing. */
  lemma {:induction false} FlatDeviationsZero(xs: seq<real>, m: real)
    requires forall i :: 0 <= i < |xs| ==> xs[i] == m
    ensures SquaredDeviations(xs, m) == 0.0
    decreases |xs|
  {
    if |xs| > 0 {
      var n := |xs| - 1;
      assert forall i :: 0 <= i < n ==> xs[..n][i] == m;
      FlatDeviationsZero(xs[..n], m);
      assert xs[n] - m == 0.0;
    }
  }

  /** The sum of n copies of `c`. */
  lemma {:induction false} SumConstant(xs: seq<real>, c: real)
    requires forall i :: 0 <= i < |xs| ==> xs[i] == c
    ensures Sum(xs) == |xs| as real * c
    decreases |xs|
  {
    if |xs| > 0 {
      SumConstant(xs[..|xs| - 1], c);
    }
  }

  /** Equal profits have their common value as mean and zero variance. */
  lemma FlatVarianceZero(xs: seq<real>)
    requires |xs| > 1
    requires forall i :: 0 <= i < |xs| ==> xs[i] == xs[0]
    ensures Mean(xs) == xs[0] && Variance(xs) == 0.0
  {
    SumConstant(xs, xs[0]);
    FlatDeviationsZero(xs, xs[0]);
  }

  /** No Sharpe ratio for fewer than two bets, for a zero variance, or for
      flat profits. Given a square root that is positive on positive inputs,
      there is one exactly when there are two or more bets with a positive
      variance, and it is the rounded mean over the standard deviation. */
  lemma SharpeDefinedIff(profits: seq<real>, sqrt: real -> real)
    ensures |profits| < 2 ==> Sharpe(profits, sqrt).None?
    ensures |profits| >= 2 && Variance(profits) == 0.0 ==> Sharpe(profits, sqrt).None?
    ensures |profits| >= 2 && (forall i :: 0 <= i < |profits| ==> profits[i] == profits[0]) ==>
              Sharpe(profits, sqrt).None?
    ensures (forall v :: v > 0.0 ==> sqrt(v) > 0.0) ==>
              (Sharpe(profits, sqrt).Some? <==> |profits| >= 2 && Variance(profits) > 0.0)
    ensures |profits| >= 2 && Variance(profits) > 0.0 && sqrt(Variance(profits)) > 0.0 ==>
              Sharpe(profits, sqrt) == Some(Round3(Mean(profits) / sqrt(Variance(profits))))
  {
    if |profits| >= 2 && forall i :: 0 <= i < |profits| ==> profits[i] == profits[0] {
      FlatVarianceZero(profits);
    }
  }

  // ---------------------------------------------------------------------
  // Exposures and the report

  /** Exposure list: ascending by id, the known name or `str(id)`, the stake
      rounded to cents. */
  function ExposureList(m: map<int, real>, names: map<int, string>): (r: seq<Exposure>)
    ensures |r| == |m|
  {
    var ids := AscendingKeys(m.Keys);
    AscendingKeysOrdered(m.Keys);
    seq(|ids|, k requires 0 <= k < |ids| =>
        Exposure(if ids[k] in names then names[ids[k]] else IntToString(ids[k]), Round2(m[ids[k]])))
  }

  /** Specification of the aggregation part of `risk_stats`. */
  function RiskSpec(rows: seq<RiskRow>, today: int, setNames: map<int, string>, bookmakerNames: map<int, string>,
                    sqrt: real -> real): RiskReport
  {
    if |rows| == 0 then RiskReport(RiskSummary(None, None, None, 0), [], [], [])
    else
      var profits := Profits(rows);
      var series := DailySeries(DailyTotals(rows, today));
      var curve := RunningSums(Pls(series));
      RiskReport(RiskSummary(Sharpe(profits, sqrt),
                             if |curve| > 0 then Some(Round2(DrawdownOf(curve))) else None,
                             if |profits| > 0 then Some(Var95(profits)) else None,
                             |profits|),
                 series,
                 ExposureList(Exposures(rows, BySet), setNames),
                 ExposureList(Exposures(rows, ByBookmaker), bookmakerNames))
  }

  /** `risk_stats` from the fetched rows on. */
  method RiskStats(rows: seq<RiskRow>, today: int, setNames: map<int, string>, bookmakerNames: map<int, string>,
                   sqrt: real -> real) returns (r: RiskReport)
    ensures r == RiskSpec(rows, today, setNames, bookmakerNames, sqrt)
  {
    if |rows| == 0 {
      return RiskReport(RiskSummary(None, None, None, 0), [], [], []);
    }
    var profits, dailyMap, expoSet, expoBm := Aggregate(rows, today);
    var dailyPl := DailySeries(dailyMap);
    var curve := EquityCurve(Pls(dailyPl));

    var maxDrawdown: Option<real> := None;
    if |curve| > 0 {
      var mdd := MaxDrawdown(curve);
      maxDrawdown := Some(Round2(mdd));
    }

    var var95: Option<real> := None;
    if |profits| > 0 {
      var95 := Some(Var95(profits));
    }

    var sharpe := Sharpe(profits, sqrt);
    r := RiskReport(RiskSummary(sharpe, maxDrawdown, var95, |profits|), dailyPl,
                    ExposureList(expoSet, setNames), ExposureList(expoBm, bookmakerNames));
  }

  /** No rows: no figures, `n` is 0 and every list is empty. With rows, `n`
      is the number of rows, VaR is reported, and so is the drawdown of the
      (non-empty) equity curve. */
  lemma ReportShape(rows: seq<RiskRow>, today: int, setNames: map<int, string>, bookmakerNames: map<int, string>,
                    sqrt: real -> real)
    ensures var r := RiskSpec(rows, today, setNames, bookmakerNames, sqrt);
            r.summary.n == |rows| &&
            (|rows| == 0 <==> r.summary.var95.None?) &&
            (|rows| == 0 ==> r.summary.maxDrawdown.None? && r.summary.sharpe.None? && r.dailyPl == [] &&
                             r.exposureBySet == [] && r.exposureByBookmaker == [])
    ensures |rows| > 0 ==>
              var curve := RunningSums(Pls(DailySeries(DailyTotals(rows, today))));
              |curve| > 0 &&
              RiskSpec(rows, today, setNames, bookmakerNames, sqrt).summary.maxDrawdown == Some(Round2(DrawdownOf(curve)))
  {
    if |rows| > 0 {
      var m := DailyTotals(rows, today);
      DailyTotalsAreDaySums(rows, today);
      assert DayOf(rows[0], today) in m;
      assert |m.Keys| > 0;
    }
  }

  /** The daily series of a map: ascending by day, one entry per key, each the
      key's value rounded to cents. */
  lemma DailySeriesOf(m: map<int, real>)
    ensures var s := DailySeries(m);
            (forall i, j :: 0 <= i < j < |s| ==> s[i].day < s[j].day) &&
            (forall i :: 0 <= i < |s| ==> s[i].day in m && s[i].pl == Round2(m[s[i].day])) &&
            (forall d :: d in m ==> exists i :: 0 <= i < |s| && s[i].day == d)
  {
    var s := DailySeries(m);
    var days := AscendingKeys(m.Keys);
    AscendingKeysOrdered(m.Keys);
    forall d | d in m ensures exists i :: 0 <= i < |s| && s[i].day == d {
      var i :| 0 <= i < |days| && days[i] == d;
      assert s[i].day == d;
    }
  }

  /** The daily series is in ascending day order, has one entry for each day
      some row falls on and none other, and holds that day's summed profit
      rounded to cents. */
  lemma DailySeriesIsPerDay(rows: seq<RiskRow>, today: int)
    ensures var s := DailySeries(DailyTotals(rows, today));
            (forall i, j :: 0 <= i < j < |s| ==> s[i].day < s[j].day) &&
            (forall i :: 0 <= i < |s| ==> s[i].pl == Round2(DaySum(rows, today, s[i].day))) &&
            (forall i :: 0 <= i < |s| ==> exists k :: 0 <= k < |rows| && DayOf(rows[k], today) == s[i].day) &&
            (forall k :: 0 <= k < |rows| ==> exists i :: 0 <= i < |s| && s[i].day == DayOf(rows[k], today))
  {
    var m := DailyTotals(rows, today);
    DailyTotalsAreDaySums(rows, today);
    DailySeriesOf(m);
    var s := DailySeries(m);
    forall k | 0 <= k < |rows| ensures exists i :: 0 <= i < |s| && s[i].day == DayOf(rows[k], today) {
      assert DayOf(rows[k], today) in m;
    }
  }

  /** The equity curve accumulates the daily values, and its drawdown is the
      largest fall from an earlier point to a later one. */
  lemma DrawdownOfEquity(pls: seq<real>)
    requires |pls| > 0
    ensures var curve := RunningSums(pls);
            (forall i :: 0 <= i < |curve| ==> curve[i] == Sum(pls[..i + 1])) &&
            DrawdownOf(curve) >= 0.0 &&
            (forall i, j :: 0 <= i <= j < |curve| ==> curve[i] - curve[j] <= DrawdownOf(curve)) &&
            (exists i, j :: 0 <= i <= j < |curve| && curve[i] - curve[j] == DrawdownOf(curve))
  {
    RunningSumsAt(pls);
    DrawdownIsLargestFall(RunningSums(pls));
  }

  /** An exposure list of a map: ordered by id, one entry per key, named by the
      name table or else by `str(id)`, holding the value rounded to cents. */
  lemma ExposureListOf(m: map<int, real>, names: map<int, string>)
    ensures var ids := AscendingKeys(m.Keys);
            var l := ExposureList(m, names);
            |l| == |ids| &&
            (forall i, j :: 0 <= i < j < |ids| ==> ids[i] < ids[j]) &&
            (forall k :: k in ids <==> k in m) &&
            (forall i :: 0 <= i < |ids| ==>
               l[i].stake == Round2(m[ids[i]]) &&
               l[i].name == (if ids[i] in names then names[ids[i]] else IntToString(ids[i])))
  {
    AscendingKeysOrdered(m.Keys);
  }

  /** Each exposure list is ordered by id, covers exactly the non-zero ids the
      rows carry, names each by the name table or else by `str(id)`, and
      holds the rounded stake of that id's rows. */
  lemma ExposureListIsPerId(rows: seq<RiskRow>, g: Grouping, names: map<int, string>)
    ensures var ids := AscendingKeys(Exposures(rows, g).Keys);
            var l := ExposureList(Exposures(rows, g), names);
            |l| == |ids| &&
            (forall i, j :: 0 <= i < j < |ids| ==> ids[i] < ids[j]) &&
            (forall k :: k in ids <==> k != 0 && exists i :: 0 <= i < |rows| && KeyOf(rows[i], g) == Some(k)) &&
            (forall i :: 0 <= i < |ids| ==>
               l[i].stake == Round2(KeyStake(rows, g, ids[i])) &&
               l[i].name == (if ids[i] in names then names[ids[i]] else IntToString(ids[i])))
  {
    ExposuresAreKeyStakes(rows, g);
    ExposureListOf(Exposures(rows, g), names);
  }
}
