/**
 * The dashboards of frontend/views.py: the six-month window of the officer
 * dashboard and the chart lists of the administrator dashboard.
 */
module Dashboard {
  import opened Objets

  /**
   * The (year, month) that lies `i` calendar months before (year, month), as
   * subtracting `relativedelta(months=i)` gives it.
   */
  function MonthsBefore(year: int, month: int, i: int): (r: (int, int))
    ensures 1 <= r.1 <= 12
    ensures r.0 * 12 + (r.1 - 1) == year * 12 + (month - 1) - i
  {
    var index := year * 12 + (month - 1) - i;
    (index / 12, index % 12 + 1)
  }

  /** The calendar month after `ym`. */
  function NextMonth(ym: (int, int)): (int, int) {
    if ym.1 == 12 then (ym.0 + 1, 1) else (ym.0, ym.1 + 1)
  }

  /** Going back zero months stays on the given month. */
  lemma MonthsBeforeZero(year: int, month: int)
    requires 1 <= month <= 12
    ensures MonthsBefore(year, month, 0) == (year, month)
  {
    var index := year * 12 + (month - 1);
    assert index == year * 12 + (month - 1);
    assert index / 12 == year && index % 12 == month - 1;
  }

  /** The month `i` months back is followed by the month `i - 1` months back. */
  lemma MonthsBeforeStep(year: int, month: int, i: int)
    ensures 1 <= MonthsBefore(year, month, i).1 <= 12
    ensures NextMonth(MonthsBefore(year, month, i)) == MonthsBefore(year, month, i - 1)
  {
    var n := year * 12 + (month - 1) - i;
    var q, r := n / 12, n % 12;
    assert n == 12 * q + r && 0 <= r < 12;
    if r == 11 {
      assert n + 1 == 12 * (q + 1) + 0;
      assert (n + 1) / 12 == q + 1 && (n + 1) % 12 == 0;
    } else {
      assert n + 1 == 12 * q + (r + 1);
      assert (n + 1) / 12 == q && (n + 1) % 12 == r + 1;
    }
  }

  /** The abbreviated month names `%b` yields in the default locale. */
  const MonthAbbrevs: seq<string> :=
    ["Jan", "Feb", "Mar", "Apr", "May", "Jun", "Jul", "Aug", "Sep", "Oct", "Nov", "Dec"]

  function MonthAbbrev(month: int): string
    requires 1 <= month <= 12
  {
    MonthAbbrevs[month - 1]
  }

  /**
   * The window of `dashboard_policier`: for i = 5 down to 0, the month i
   * months before today, with its label. The result is six consecutive
   * calendar months in chronological order ending with the current month.
   * The earliest month must still fall in year 1 or later, as the date type
   * requires.
   */
  method LastSixMonths(year: int, month: int) returns (labels: seq<string>, window: seq<(int, int)>)
    requires 1 <= month <= 12
    requires year * 12 + (month - 1) - 5 >= 12
    ensures |window| == 6 && |labels| == 6
    ensures window[5] == (year, month)
    ensures forall k :: 0 <= k < 5 ==> NextMonth(window[k]) == window[k + 1]
    ensures forall k :: 0 <= k < 6 ==> window[k].0 >= 1 && 1 <= window[k].1 <= 12
    ensures forall k :: 0 <= k < 6 ==> 1 <= window[k].1 <= 12 && labels[k] == MonthAbbrev(window[k].1)
  {
    labels, window := [], [];
    var i := 5;
    while i >= 0
      invariant -1 <= i <= 5
      invariant |window| == 5 - i && |labels| == 5 - i
      invariant forall k :: 0 <= k < |window| ==> window[k] == MonthsBefore(year, month, 5 - k)
      invariant forall k :: 0 <= k < |window| ==>
                  1 <= window[k].1 <= 12 && labels[k] == MonthAbbrev(window[k].1)
    {
      var m := MonthsBefore(year, month, i);
      MonthsBeforeStep(year, month, i);
      labels := labels + [MonthAbbrev(m.1)];
      window := window + [m];
      i := i - 1;
    }
    MonthsBeforeZero(year, month);
    forall k | 0 <= k < 5
      ensures NextMonth(window[k]) == window[k + 1]
    {
      MonthsBeforeStep(year, month, 5 - k);
    }
    forall k | 0 <= k < 6
      ensures window[k].0 >= 1
    {
      var n := year * 12 + (month - 1) - (5 - k);
      assert n >= 12;
    }
  }

  /** `s[::-1]`. */
  function Reversed<T>(s: seq<T>): (r: seq<T>)
    ensures |r| == |s|
    ensures forall k :: 0 <= k < |s| ==> r[k] == s[|s| - 1 - k]
  {
    if s == [] then [] else Reversed(s[1..]) + [s[0]]
  }

  /** One chart column: 1 for each item in state `e`, 0 for the others. */
  function StateFlags(objs: seq<Objet>, e: Etat): (flags: seq<int>)
    ensures |flags| == |objs|
    ensures forall k :: 0 <= k < |objs| ==> (flags[k] == 1 <==> objs[k].etat == e) && 0 <= flags[k] <= 1
  {
    seq(|objs|, k requires 0 <= k < |objs| => if objs[k].etat == e then 1 else 0)
  }

  /**
   * The chart of `dashboard_admin`: names, lost flags and found flags of the
   * most recent items (given newest first), in chronological order.
   */
  function AdminChart(recent: seq<Objet>): (chart: (seq<string>, seq<int>, seq<int>))
    ensures |chart.0| == |recent| && |chart.1| == |recent| && |chart.2| == |recent|
    ensures forall k :: 0 <= k < |recent| ==>
              && chart.0[k] == recent[|recent| - 1 - k].nom
              && (chart.1[k] == 1 <==> recent[|recent| - 1 - k].etat == Perdu)
              && (chart.2[k] == 1 <==> recent[|recent| - 1 - k].etat == Trouve)
  {
    var names := seq(|recent|, k requires 0 <= k < |recent| => recent[k].nom);
    (Reversed(names), Reversed(StateFlags(recent, Perdu)), Reversed(StateFlags(recent, Trouve)))
  }
}
