/**
 * The alerts page: badge tables for severities and states, the search and
 * dropdown filter, the stat tiles, the actions an alert offers in each
 * state, and the truncated tag and device-id captions.
 */
module AlertsView {
  import opened Common
  import opened Domain

  // ---------------------------------------------------------------------
  // Badge tables
  // ---------------------------------------------------------------------

  /** `getSeverityVariant`. */
  function SeverityVariant(severity: string): (variant: string)
    ensures variant == "danger" <==> severity == "critical"
    ensures variant == "warning" <==> severity == "high"
    ensures variant == "info" <==> severity == "medium"
    ensures variant == "secondary" <==> severity == "low"
    ensures variant == "default" <==> severity !in {"critical", "high", "medium", "low"}
  {
    match severity
    case "critical" => "danger"
    case "high" => "warning"
    case "medium" => "info"
    case "low" => "secondary"
    case _ => "default"
  }

  /** `getStateVariant`. */
  function StateVariant(state: string): (variant: string)
    ensures variant == "danger" <==> state == "firing"
    ensures variant == "warning" <==> state == "acknowledged"
    ensures variant == "success" <==> state == "resolved"
    ensures variant == "secondary" <==> state == "silenced"
    ensures variant == "default" <==> state !in {"firing", "acknowledged", "resolved", "silenced"}
  {
    match state
    case "firing" => "danger"
    case "acknowledged" => "warning"
    case "resolved" => "success"
    case "silenced" => "secondary"
    case _ => "default"
  }

  /** Every alert state has its own variant, while the 'info' severity falls back to 'default'. */
  lemma VariantsOfDeclaredValues(s: AlertState, t: AlertState, v: Severity)
    ensures s != t ==> StateVariant(s.Name()) != StateVariant(t.Name())
    ensures StateVariant(s.Name()) != "default"
    ensures SeverityVariant(v.Name()) == "default" <==> v == Info
  {
  }

  datatype StateIcon = TriangleIcon | EyeIcon | CheckIcon | CrossIcon | BellIcon

  /** `getStateIcon`: one icon per known state, the bell otherwise. */
  function StateIconFor(state: string): (icon: StateIcon)
    ensures icon == TriangleIcon <==> state == "firing"
    ensures icon == EyeIcon <==> state == "acknowledged"
    ensures icon == CheckIcon <==> state == "resolved"
    ensures icon == CrossIcon <==> state == "silenced"
    ensures icon == BellIcon <==> state !in {"firing", "acknowledged", "resolved", "silenced"}
  {
    match state
    case "firing" => TriangleIcon
    case "acknowledged" => EyeIcon
    case "resolved" => CheckIcon
    case "silenced" => CrossIcon
    case _ => BellIcon
  }

  // ---------------------------------------------------------------------
  // Filtering
  // ---------------------------------------------------------------------

  /** The search box and the two dropdowns; "all" is the dropdowns' wildcard. */
  datatype AlertFilter = AlertFilter(search: string, severity: string, state: string)

  predicate MatchesSearch(a: Alert, search: string)
  {
    Contains(ToLower(a.title), ToLower(search)) || Contains(ToLower(a.description), ToLower(search))
  }

  /** The filter as the predicate handed to `filter`. */
  function Matcher(f: AlertFilter): Alert -> bool
  {
    a => AlertMatches(f, a)
  }

  predicate AlertMatches(f: AlertFilter, a: Alert)
  {
    MatchesSearch(a, f.search)
    && (f.severity == "all" || a.severity.Name() == f.severity)
    && (f.state == "all" || a.state.Name() == f.state)
  }

  /** `filteredAlerts`: the alerts passing the search and both dropdowns, in their original order. */
  function FilteredAlerts(alerts: seq<Alert>, f: AlertFilter): (r: seq<Alert>)
    ensures IsSubsequence(r, alerts)
    ensures forall a :: a in r <==> a in alerts && AlertMatches(f, a)
  {
    var r := Filter(alerts, Matcher(f));
    assert forall a :: a in r <==> a in alerts && AlertMatches(f, a) by {
      forall a ensures a in r <==> a in alerts && AlertMatches(f, a) {
        FilterMembership(alerts, Matcher(f), a);
      }
    }
    r
  }

  /** An empty search with both dropdowns on "all" shows every alert. */
  lemma NoFilterShowsAll(alerts: seq<Alert>)
    ensures FilteredAlerts(alerts, AlertFilter("", "all", "all")) == alerts
  {
    var f := AlertFilter("", "all", "all");
    forall n | 0 <= n < |alerts| ensures AlertMatches(f, alerts[n]) {
      ContainsEmpty(ToLower(alerts[n].title));
    }
    FilterAll(alerts, Matcher(f));
  }

  /** The search ignores letter case: typing it in lower case changes nothing. */
  lemma SearchIgnoresCase(alerts: seq<Alert>, f: AlertFilter)
    ensures FilteredAlerts(alerts, f.(search := ToLower(f.search))) == FilteredAlerts(alerts, f)
  {
    var g := f.(search := ToLower(f.search));
    ToLowerIdempotent(f.search);
    forall n | 0 <= n < |alerts| ensures Matcher(g)(alerts[n]) == Matcher(f)(alerts[n]) {
      assert ToLower(g.search) == ToLower(f.search);
    }
    FilterAgree(alerts, Matcher(g), Matcher(f));
  }

  /** Picking a severity in place of "all" can only shorten the list. */
  lemma SeverityNarrows(alerts: seq<Alert>, f: AlertFilter, severity: string)
    ensures |FilteredAlerts(alerts, f.(severity := severity))| <= |FilteredAlerts(alerts, f.(severity := "all"))|
  {
    var wide := f.(severity := "all");
    var narrow := f.(severity := severity);
    forall a | Matcher(narrow)(a) ensures Matcher(wide)(a) {
      assert AlertMatches(narrow, a);
    }
    FilterNarrows(alerts, Matcher(wide), Matcher(narrow));
  }

  /** The message shown when nothing passes: `None` while the list is not empty. */
  function EmptyMessage(alerts: seq<Alert>, f: AlertFilter): (msg: Option<string>)
    ensures msg.None? <==> |FilteredAlerts(alerts, f)| > 0
    ensures msg == Some("No alerts match your filters") <==>
      |FilteredAlerts(alerts, f)| == 0 && (f.search != "" || f.severity != "all" || f.state != "all")
  {
    if |FilteredAlerts(alerts, f)| > 0 then None
    else if f.search != "" || f.severity != "all" || f.state != "all" then Some("No alerts match your filters")
    else Some("No active alerts")
  }

  /** With no filter set, "No active alerts" appears exactly when there are no alerts at all. */
  lemma NoActiveAlertsMessage(alerts: seq<Alert>)
    ensures EmptyMessage(alerts, AlertFilter("", "all", "all")) == Some("No active alerts") <==> alerts == []
  {
    NoFilterShowsAll(alerts);
  }

  // ---------------------------------------------------------------------
  // Stat tiles
  // ---------------------------------------------------------------------

  datatype AlertStats = AlertStats(total: nat, firing: nat, acknowledged: nat, resolved: nat, critical: nat)

  predicate IsFiring(a: Alert) { a.state == Firing }
  predicate IsAcknowledged(a: Alert) { a.state == Acknowledged }
  predicate IsResolved(a: Alert) { a.state == Resolved }
  predicate IsCriticalFiring(a: Alert) { a.severity == Critical && a.state == Firing }

  /** `alertStats`. */
  function Stats(alerts: seq<Alert>): (s: AlertStats)
    ensures s.total == |alerts|
    ensures s.critical <= s.firing
  {
    FilterNarrows(alerts, IsFiring, IsCriticalFiring);
    AlertStats(|alerts|, |Filter(alerts, IsFiring)|, |Filter(alerts, IsAcknowledged)|,
      |Filter(alerts, IsResolved)|, |Filter(alerts, IsCriticalFiring)|)
  }

  /** Silenced alerts are in no state tile, so the three tiles never exceed the total, and they
      add up to it when nothing is silenced. */
  lemma StateTilesBounded(alerts: seq<Alert>)
    ensures Stats(alerts).firing + Stats(alerts).acknowledged + Stats(alerts).resolved <= Stats(alerts).total
    ensures (forall n :: 0 <= n < |alerts| ==> alerts[n].state != Silenced) ==>
      Stats(alerts).firing + Stats(alerts).acknowledged + Stats(alerts).resolved == Stats(alerts).total
  {
    FilterDisjointTallies(alerts, IsFiring, IsAcknowledged, IsResolved);
    if forall n :: 0 <= n < |alerts| ==> alerts[n].state != Silenced {
      FilterCoveringTallies(alerts, IsFiring, IsAcknowledged, IsResolved);
    }
  }

  /** The tiles agree with the header and the overview: 'firing' counts the active alerts and
      'critical' counts the critical active alerts. */
  lemma TilesAgreeWithActiveAlerts(alerts: seq<Alert>)
    ensures Stats(alerts).firing == |ActiveAlerts(alerts)|
    ensures Stats(alerts).critical == |CriticalAlerts(ActiveAlerts(alerts))|
  {
    FilterAgree(alerts, IsFiring, (a: Alert) => a.state == Firing);
    FilterCompose(alerts, (a: Alert) => a.state == Firing, (a: Alert) => a.severity == Critical, IsCriticalFiring);
  }

  // ---------------------------------------------------------------------
  // Per-alert actions and captions
  // ---------------------------------------------------------------------

  datatype Action = AcknowledgeAction | SilenceAction | ResolveAction | RunbookAction

  /** The action buttons of an alert card, in display order. */
  function Actions(a: Alert): (actions: seq<Action>)
    ensures AcknowledgeAction in actions <==> a.state == Firing
    ensures SilenceAction in actions <==> a.state == Firing
    ensures ResolveAction in actions <==> a.state == Acknowledged
    ensures RunbookAction in actions <==> a.runbook.Some? && a.runbook.value != ""
    ensures a.state in {Resolved, Silenced} ==> actions == [] || actions == [RunbookAction]
  {
    var byState :=
      if a.state == Firing then [AcknowledgeAction, SilenceAction]
      else if a.state == Acknowledged then [ResolveAction]
      else [];
    byState + if a.runbook.Some? && a.runbook.value != "" then [RunbookAction] else []
  }

  /** The tags caption: shown only for an alert with tags; the first two tags and a count of the rest. */
  function TagCaption(a: Alert): (caption: Option<Truncated<string>>)
    ensures caption.None? <==> a.tags == []
    ensures caption.Some? ==> caption.value.shown <= a.tags && |caption.value.shown| <= 2
    ensures caption.Some? ==> |caption.value.shown| + caption.value.hidden == |a.tags|
  {
    if a.tags == [] then None else Some(Truncate(a.tags, 2))
  }

  /** The "+n more" text next to the tags. */
  function MoreText(t: Truncated<string>): (text: Option<string>)
    ensures text.Some? <==> t.hidden > 0
    ensures text.Some? ==> text.value == "+" + NatToString(t.hidden) + " more"
  {
    if t.hidden > 0 then Some("+" + NatToString(t.hidden) + " more") else None
  }

  /** The device caption: the last six characters of the device id, when there is a device id. */
  function DeviceCaption(a: Alert): (caption: Option<string>)
    ensures caption.Some? <==> a.deviceId.Some? && a.deviceId.value != ""
    ensures caption.Some? ==> caption.value == LastN(a.deviceId.value, 6) && |caption.value| <= 6
  {
    if a.deviceId.Some? && a.deviceId.value != "" then Some(LastN(a.deviceId.value, 6)) else None
  }
}
