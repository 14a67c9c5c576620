/** The alerts list: the severity tabs, the list each tab shows, the badge
    counts on the tabs and the rows of the table with their icon and status
    colour. */
module AlertsList {
  import opened Common

  /** An alert as the list receives it; `kind` is the `type` field. */
  datatype Alert = Alert(id: string, vehicleId: string, vehicleName: string, kind: string,
                         severity: string, value: real, timestamp: string, status: string, zone: string)

  /** The severity a non-"all" tab filters on: "high" and "medium" name
      themselves, every other tab value falls through to "low". */
  function TabSeverity(tab: string): (severity: string)
    ensures tab == "high" || tab == "medium" ==> severity == tab
    ensures tab != "high" && tab != "medium" ==> severity == "low"
  {
    if tab == "high" then "high" else if tab == "medium" then "medium" else "low"
  }

  function BySeverity(alerts: seq<Alert>, severity: string): seq<Alert>
  {
    Filter(alerts, (a: Alert) => a.severity == severity)
  }

  /** `filteredAlerts`: the whole list on tab "all", otherwise the alerts of
      the tab's severity. Always a subsequence of the input. */
  function VisibleAlerts(alerts: seq<Alert>, tab: string): (shown: seq<Alert>)
    ensures tab == "all" ==> shown == alerts
    ensures tab != "all" ==> forall i :: 0 <= i < |shown| ==> shown[i].severity == TabSeverity(tab)
    ensures IsSubsequence(shown, alerts)
  {
    if tab == "all" then SubsequenceRefl(alerts); alerts
    else
      FilterIsSubsequence(alerts, (a: Alert) => a.severity == TabSeverity(tab));
      BySeverity(alerts, TabSeverity(tab))
  }

  /** A severity tab shows every alert of its severity, as often as it
      occurs, and no other alert. */
  lemma TabShowsExactlyItsSeverity(alerts: seq<Alert>, tab: string, a: Alert)
    requires tab != "all"
    ensures multiset(VisibleAlerts(alerts, tab))[a]
            == if a.severity == TabSeverity(tab) then multiset(alerts)[a] else 0
  {
    FilterMultiset(alerts, (x: Alert) => x.severity == TabSeverity(tab), a);
  }

  /** The numbers on the four tab triggers. */
  datatype Badges = Badges(all: nat, high: nat, medium: nat, low: nat)

  function BadgeCounts(alerts: seq<Alert>): (b: Badges)
    ensures b.all == |VisibleAlerts(alerts, "all")|
    ensures b.high == |VisibleAlerts(alerts, "high")|
    ensures b.medium == |VisibleAlerts(alerts, "medium")|
    ensures b.low == |VisibleAlerts(alerts, "low")|
  {
    Badges(|alerts|, |BySeverity(alerts, "high")|, |BySeverity(alerts, "medium")|, |BySeverity(alerts, "low")|)
  }

  /** The three severity badges never add up to more than the total, and
      add up to exactly the total when every alert has one of the three
      severities. */
  lemma {:induction false} BadgesPartition(alerts: seq<Alert>)
    ensures var b := BadgeCounts(alerts); b.high + b.medium + b.low <= b.all
    ensures (forall i :: 0 <= i < |alerts| ==> alerts[i].severity in {"high", "medium", "low"})
            ==> var b := BadgeCounts(alerts); b.high + b.medium + b.low == b.all
  {
    if alerts != [] {
      BadgesPartition(alerts[1..]);
    }
  }

  datatype Icon = RedTriangle | AmberTriangle | BlueInfo

  /** The severity icon: high red, medium amber, anything else blue info. */
  function IconFor(severity: string): (icon: Icon)
    ensures icon == RedTriangle <==> severity == "high"
    ensures icon == AmberTriangle <==> severity == "medium"
    ensures icon == BlueInfo <==> severity != "high" && severity != "medium"
  {
    if severity == "high" then RedTriangle else if severity == "medium" then AmberTriangle else BlueInfo
  }

  /** The status colour: "Nueva" red, "En revisión" amber, anything else green. */
  function StatusColorFor(status: string): (color: string)
    ensures color == "text-red-500" <==> status == "Nueva"
    ensures color == "text-amber-500" <==> status == "En revisión"
    ensures color == "text-green-500" <==> status != "Nueva" && status != "En revisión"
  {
    if status == "Nueva" then "text-red-500" else if status == "En revisión" then "text-amber-500" else "text-green-500"
  }

  /** The value cell: temperatures get a degree suffix; `show` is the
      number's string conversion. */
  function ValueCell(a: Alert, show: real -> string): (cell: string)
    ensures Contains(a.kind, "Temperatura") ==> cell == show(a.value) + "°C"
    ensures !Contains(a.kind, "Temperatura") ==> cell == show(a.value)
  {
    if Contains(a.kind, "Temperatura") then show(a.value) + "°C" else show(a.value)
  }

  datatype AlertRow = NoAlertsRow | Row(alert: Alert, icon: Icon, statusColor: string)

  function Rows(shown: seq<Alert>): (rows: seq<AlertRow>)
    ensures |rows| == |shown|
    ensures forall i :: 0 <= i < |shown| ==>
              rows[i] == Row(shown[i], IconFor(shown[i].severity), StatusColorFor(shown[i].status))
  {
    if shown == [] then []
    else [Row(shown[0], IconFor(shown[0].severity), StatusColorFor(shown[0].status))] + Rows(shown[1..])
  }

  /** The table body: a single "no alerts" row for an empty list, otherwise
      one row per shown alert, in order. */
  function TableBody(shown: seq<Alert>): (rows: seq<AlertRow>)
    ensures shown == [] ==> rows == [NoAlertsRow]
    ensures shown != [] ==> |rows| == |shown| && forall i :: 0 <= i < |rows| ==> rows[i].Row? && rows[i].alert == shown[i]
  {
    if shown == [] then [NoAlertsRow] else Rows(shown)
  }

  /** The selected tab, written by the tab strip. */
  class AlertsTabs {
    var selectedTab: string

    constructor ()
      ensures selectedTab == "all"
    {
      selectedTab := "all";
    }

    /** `onValueChange={setSelectedTab}`. */
    method OnTabChange(tab: string)
      modifies this
      ensures selectedTab == tab
    {
      selectedTab := tab;
    }

    /** The list shown for the current tab. */
    function Shown(alerts: seq<Alert>): (shown: seq<Alert>)
      reads this
      ensures shown == VisibleAlerts(alerts, selectedTab)
      ensures IsSubsequence(shown, alerts)
    {
      VisibleAlerts(alerts, selectedTab)
    }
  }
}
