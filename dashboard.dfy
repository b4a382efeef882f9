/** The manager dashboard's label maps: month names, the status badge classes and
    captions, and the series handed to the two charts. */
module ManagerDashboard {
  import opened Wrappers
  import opened JsStrings

  const Months: seq<string> :=
    ["Jan", "Feb", "Mar", "Apr", "May", "Jun", "Jul", "Aug", "Sep", "Oct", "Nov", "Dec"]

  /** `getMonthName(m)`: `months[m - 1]`, undefined outside 1..12. */
  function MonthName(m: int): Option<string> {
    if 1 <= m <= 12 then Some(Months[m - 1]) else None
  }

  /** The five order statuses the maps know. */
  predicate KnownStatus(s: string) {
    s == "pending" || s == "paid" || s == "shipped" || s == "completed" || s == "cancelled"
  }

  const GrayBadge := "bg-gray-100 text-gray-700"

  /** `getStatusColor`. */
  function StatusColor(s: string): string {
    if s == "pending" then "bg-yellow-100 text-yellow-700"
    else if s == "paid" then "bg-blue-100 text-blue-700"
    else if s == "shipped" then "bg-purple-100 text-purple-700"
    else if s == "completed" then "bg-green-100 text-green-700"
    else if s == "cancelled" then "bg-red-100 text-red-700"
    else GrayBadge
  }

  /** `getStatusText`: the caption, or the status itself when unknown. */
  function StatusText(s: string): string {
    if s == "pending" then "Pending"
    else if s == "paid" then "Paid"
    else if s == "shipped" then "Shipped"
    else if s == "completed" then "Completed"
    else if s == "cancelled" then "Cancelled"
    else s
  }

  const GrayChart := "#6b7280"

  /** The status chart's colour map. */
  function ChartColor(s: string): string {
    if s == "pending" then "#fbbf24"
    else if s == "paid" then "#3b82f6"
    else if s == "shipped" then "#a855f7"
    else if s == "completed" then "#10b981"
    else if s == "cancelled" then "#ef4444"
    else GrayChart
  }

  /** `${getMonthName(month)} ${year}`: an unknown month renders as `undefined`. */
  function RevenueLabel(month: int, year: int): string {
    (match MonthName(month) case Some(n) => n case None => "undefined") + " " + IntToString(year)
  }

  datatype MonthlyRevenue = MonthlyRevenue(month: int, year: int, revenue: int)
  datatype StatusCount = StatusCount(status: string, count: int)
  datatype Dashboard = Dashboard(monthlyRevenue: seq<MonthlyRevenue>, ordersByStatus: seq<StatusCount>)

  /** The series handed to the charts; all empty before the data has arrived. */
  datatype Charts = Charts(
    revenueLabels: seq<string>, revenueValues: seq<int>,
    statusLabels: seq<string>, statusValues: seq<int>, statusColors: seq<string>)

  function ChartsOf(d: Option<Dashboard>): Charts {
    match d
    case None => Charts([], [], [], [], [])
    case Some(x) =>
      var mr := x.monthlyRevenue;
      var os := x.ordersByStatus;
      Charts(
        seq(|mr|, i requires 0 <= i < |mr| => RevenueLabel(mr[i].month, mr[i].year)),
        seq(|mr|, i requires 0 <= i < |mr| => mr[i].revenue),
        seq(|os|, i requires 0 <= i < |os| => StatusText(os[i].status)),
        seq(|os|, i requires 0 <= i < |os| => os[i].count),
        seq(|os|, i requires 0 <= i < |os| => ChartColor(os[i].status)))
  }

  /** The upper-case form of an ASCII lower-case letter. */
  function UpperChar(c: char): char {
    if 'a' <= c <= 'z' then (c as int - 32) as char else c
  }

  // ------------------------------------------------------------ lemmas

  /** Month m in 1..12 gets a three-letter name, no two months the same; any other
      number gets none. */
  lemma MonthNameLaws(m: int, k: int)
    ensures MonthName(m).Some? <==> 1 <= m <= 12
    ensures MonthName(m).Some? ==> |MonthName(m).value| == 3
    ensures MonthName(m).Some? && MonthName(k).Some? && MonthName(m) == MonthName(k) ==> m == k
  {
  }

  /** Each of the five statuses gets a badge class of its own, never the gray one, and
      anything else gets the gray class. */
  lemma StatusColorLaws(s: string, t: string)
    ensures StatusColor(s) == GrayBadge <==> !KnownStatus(s)
    ensures KnownStatus(s) && KnownStatus(t) && StatusColor(s) == StatusColor(t) ==> s == t
  {
  }

  /** A known status is shown capitalised and an unknown one as it is; lower-casing the
      caption of a known status gives the status back. */
  lemma StatusTextLaws(s: string)
    ensures KnownStatus(s) ==>
      StatusText(s) != s && StatusText(s)[0] == UpperChar(s[0]) && StatusText(s)[1..] == s[1..]
    ensures !KnownStatus(s) ==> StatusText(s) == s
    ensures KnownStatus(s) ==> ToLower(StatusText(s)) == s
  {
    if KnownStatus(s) {
      StatusTextLowers(s);
    }
  }

  lemma StatusTextLowers(s: string)
    requires KnownStatus(s)
    ensures ToLower(StatusText(s)) == s
  {
    CapitalLowers(s);
  }

  /** Lower-casing a word whose first letter alone was raised gives the word back. */
  lemma CapitalLowers(s: string)
    requires |s| > 0 && 'a' <= s[0] <= 'z'
    requires forall i | 0 <= i < |s| :: !('A' <= s[i] <= 'Z')
    ensures ToLower([UpperChar(s[0])] + s[1..]) == s
  {
    var t := [UpperChar(s[0])] + s[1..];
    forall i | 0 <= i < |s|
      ensures ToLower(t)[i] == s[i]
    {
      if i > 0 {
        assert t[i] == s[i];
      }
    }
  }

  /** The chart colour follows the badge: its own for each known status, gray for the
      rest. */
  lemma ChartColorLaws(s: string, t: string)
    ensures ChartColor(s) == GrayChart <==> !KnownStatus(s)
    ensures KnownStatus(s) && KnownStatus(t) && ChartColor(s) == ChartColor(t) ==> s == t
  {
  }

  /** A revenue label is the month name, a space and the year. */
  lemma RevenueLabelOfMonth(month: int, year: int)
    requires 1 <= month <= 12 && year >= 0
    ensures RevenueLabel(month, year) == Months[month - 1] + " " + NatToString(year)
    ensures |RevenueLabel(month, year)| > 4
  {
  }

  /** The series are parallel: one label, value and colour per entry, in order, and all
      empty without data. */
  lemma ChartsParallel(d: Option<Dashboard>)
    ensures var c := ChartsOf(d);
      && |c.revenueLabels| == |c.revenueValues|
      && |c.statusLabels| == |c.statusValues| == |c.statusColors|
      && (d.None? ==> c == Charts([], [], [], [], []))
      && (d.Some? ==> |c.revenueLabels| == |d.value.monthlyRevenue|)
      && (d.Some? ==> forall i | 0 <= i < |c.revenueLabels| ::
            c.revenueLabels[i] == RevenueLabel(d.value.monthlyRevenue[i].month, d.value.monthlyRevenue[i].year)
            && c.revenueValues[i] == d.value.monthlyRevenue[i].revenue)
      && (d.Some? ==> |c.statusColors| == |d.value.ordersByStatus|)
      && (d.Some? ==> forall i | 0 <= i < |c.statusColors| ::
            c.statusColors[i] == ChartColor(d.value.ordersByStatus[i].status)
            && c.statusLabels[i] == StatusText(d.value.ordersByStatus[i].status)
            && c.statusValues[i] == d.value.ordersByStatus[i].count)
  {
  }
}
