/** The security-alerts dashboard (`app/dashboard/alerts/page.tsx`): the
    constant alert list, its search, type and status filter, and the
    per-type counts. */
module Alerts {
  import opened Seqs
  import opened JsText
  import opened Search

  datatype AlertType = Critical | Warning | Info | Success
  datatype AlertStatus = Unread | Read | Archived

  /** The string a type is compared to the type select's value as. */
  function TypeName(t: AlertType): string
  {
    match t
    case Critical => "critical"
    case Warning => "warning"
    case Info => "info"
    case Success => "success"
  }

  function StatusName(s: AlertStatus): string
  {
    match s
    case Unread => "unread"
    case Read => "read"
    case Archived => "archived"
  }

  datatype SecurityAlert = SecurityAlert(
    id: nat,
    title: string,
    description: string,
    kind: AlertType,
    status: AlertStatus,
    timestamp: string,
    source: string,
    actionRequired: bool)

  const AllAlerts: seq<SecurityAlert> := [
    SecurityAlert(1, "Critical Security Update Required",
      "System detected outdated security certificates that require immediate attention.",
      Critical, Unread, "2024-02-28T10:30:00", "Security Scanner", true),
    SecurityAlert(2, "Unusual Login Activity Detected",
      "Multiple failed login attempts from IP address 192.168.1.100",
      Warning, Unread, "2024-02-28T09:45:00", "Authentication System", true),
    SecurityAlert(3, "Backup Completed Successfully",
      "Automated system backup completed with no errors",
      Success, Read, "2024-02-28T08:00:00", "Backup Service", false),
    SecurityAlert(4, "New Security Policy Update",
      "Security policies have been updated. Please review the changes.",
      Info, Unread, "2024-02-28T07:30:00", "Policy Manager", true)
  ]

  /** The three tests of the filter callback. */
  predicate Matches(query: string, kind: string, status: string, a: SecurityAlert)
  {
    (Mentions(a.title, query) || Mentions(a.description, query)) &&
    Selected(kind, TypeName(a.kind)) &&
    Selected(status, StatusName(a.status))
  }

  /** `filteredAlerts` over a list of alerts: the ones that pass, in order. */
  function FilterAlerts(alerts: seq<SecurityAlert>, query: string, kind: string, status: string): (r: seq<SecurityAlert>)
    ensures IsSubsequence(r, alerts)
    ensures forall a :: a in r <==> a in alerts && Matches(query, kind, status, a)
  {
    Filter(alerts, (a: SecurityAlert) => Matches(query, kind, status, a))
  }

  /** `filteredAlerts`. */
  function FilteredAlerts(query: string, kind: string, status: string): seq<SecurityAlert>
  {
    FilterAlerts(AllAlerts, query, kind, status)
  }

  /** With an empty query and both selects on "all", every alert is shown. */
  lemma NoFilterShowsAll(alerts: seq<SecurityAlert>)
    ensures FilterAlerts(alerts, "", All, All) == alerts
  {
    forall i | 0 <= i < |alerts| ensures Matches("", All, All, alerts[i]) {
      MentionsEmpty(alerts[i].title);
    }
    FilterAll(alerts, (a: SecurityAlert) => Matches("", All, All, a));
  }

  /** The query's case does not matter. */
  lemma SearchIgnoresCase(alerts: seq<SecurityAlert>, query: string, kind: string, status: string)
    ensures FilterAlerts(alerts, ToUpper(query), kind, status) == FilterAlerts(alerts, query, kind, status)
  {
    forall i | 0 <= i < |alerts|
      ensures Matches(ToUpper(query), kind, status, alerts[i]) == Matches(query, kind, status, alerts[i])
    {
      MentionsIgnoresCase(alerts[i].title, query);
      MentionsIgnoresCase(alerts[i].description, query);
    }
    FilterExt(alerts, (a: SecurityAlert) => Matches(ToUpper(query), kind, status, a),
              (a: SecurityAlert) => Matches(query, kind, status, a));
  }

  /** Choosing a type shows exactly the alerts of that type among those the
      other two tests pass. */
  lemma TypeFilterExact(alerts: seq<SecurityAlert>, query: string, t: AlertType, status: string, a: SecurityAlert)
    ensures a in FilterAlerts(alerts, query, TypeName(t), status) <==>
      a in FilterAlerts(alerts, query, All, status) && a.kind == t
  {
    assert TypeName(t) != All;
    assert TypeName(a.kind) == TypeName(t) <==> a.kind == t;
  }

  datatype AlertCounts = AlertCounts(critical: nat, warning: nat, info: nat, success: nat)

  function CountType(alerts: seq<SecurityAlert>, t: AlertType): nat
  {
    Count(alerts, (a: SecurityAlert) => a.kind == t)
  }

  /** Each alert has exactly one type, so the four counts add up. */
  lemma {:induction false} TypeCountsAddUp(alerts: seq<SecurityAlert>)
    ensures CountType(alerts, Critical) + CountType(alerts, Warning) +
            CountType(alerts, Info) + CountType(alerts, Success) == |alerts|
  {
    if alerts != [] {
      TypeCountsAddUp(alerts[1..]);
    }
  }

  /** `alertCounts`: taken over the whole list, whatever the filters. */
  function Counts(alerts: seq<SecurityAlert>): (c: AlertCounts)
    ensures c.critical == CountType(alerts, Critical) && c.warning == CountType(alerts, Warning)
    ensures c.info == CountType(alerts, Info) && c.success == CountType(alerts, Success)
    ensures c.critical + c.warning + c.info + c.success == |alerts|
  {
    TypeCountsAddUp(alerts);
    AlertCounts(CountType(alerts, Critical), CountType(alerts, Warning),
                CountType(alerts, Info), CountType(alerts, Success))
  }

  /** The constant list holds one alert of each type. */
  lemma OneOfEachType()
    ensures Counts(AllAlerts) == AlertCounts(1, 1, 1, 1)
    ensures |AllAlerts| == 4
  {
    var a := AllAlerts;
    assert a == [a[0]] + [a[1]] + [a[2]] + [a[3]];
    forall t: AlertType ensures CountType(a, t) == 1 {
      var p := (x: SecurityAlert) => x.kind == t;
      FilterAppend([a[0]] + [a[1]] + [a[2]], [a[3]], p);
      FilterAppend([a[0]] + [a[1]], [a[2]], p);
      FilterAppend([a[0]], [a[1]], p);
    }
  }
}
