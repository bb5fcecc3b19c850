/**
 * The page header: the five time-range presets of the selector, the range
 * a chosen preset produces, the lookup of the selected caption among the
 * presets, and the alert badges next to the bell and under the selector.
 * `Date.now()` is the parameter `now`, in milliseconds.
 */
module Header {
  import opened Common
  import opened Domain
  import Store

  // ---------------------------------------------------------------------
  // Time-range presets
  // ---------------------------------------------------------------------

  /** One entry of the selector: its caption and how many minutes back it reaches. */
  datatype Preset = Preset(caption: string, minutes: nat)

  /** `timeRanges`, in the selector's order. */
  const Presets: seq<Preset> := [
    Preset("Last 15 minutes", 15),
    Preset("Last hour", 60),
    Preset("Last 4 hours", 240),
    Preset("Last 24 hours", 1440),
    Preset("Last 7 days", 10080)
  ]

  const MinuteMs: nat := 60 * 1000

  /** The presets reach strictly further back in selector order, and no two share a caption. */
  lemma PresetsOrdered()
    ensures forall i, j :: 0 <= i < j < |Presets| ==> Presets[i].minutes < Presets[j].minutes
    ensures forall i, j :: 0 <= i < j < |Presets| ==> Presets[i].caption != Presets[j].caption
  {
  }

  /** `handleTimeRangeChange`: the range ending now and reaching the preset's minutes back, under
      the preset's caption. */
  function RangeFor(now: int, p: Preset): (r: TimeRange)
    ensures r.end == now && r.caption == p.caption
    ensures r.start <= r.end && r.end - r.start == p.minutes * MinuteMs
  {
    TimeRange(now - p.minutes * MinuteMs, now, p.caption)
  }

  /** `timeRanges.find(r => r.label === caption)`: the first preset with exactly that caption. */
  function FindPreset(ps: seq<Preset>, caption: string): (r: Option<nat>)
    ensures r.Some? ==> r.value < |ps| && ps[r.value].caption == caption
    ensures r.Some? ==> forall i :: 0 <= i < r.value ==> ps[i].caption != caption
    ensures r.None? <==> forall i :: 0 <= i < |ps| ==> ps[i].caption != caption
  {
    if ps == [] then None
    else if ps[0].caption == caption then Some(0)
    else match FindPreset(ps[1..], caption)
      case None => None
      case Some(k) => Some(k + 1)
  }

  /** The selector's `onChange`: a caption among the presets selects that preset's range as of
      `now`; any other caption leaves the current range as it is. */
  function OnRangeSelected(current: TimeRange, caption: string, now: int): (r: TimeRange)
    ensures (forall i :: 0 <= i < |Presets| ==> Presets[i].caption != caption) ==> r == current
    ensures forall i :: 0 <= i < |Presets| && Presets[i].caption == caption ==>
      r == RangeFor(now, Presets[i])
  {
    PresetsOrdered();
    match FindPreset(Presets, caption)
    case None => current
    case Some(k) => RangeFor(now, Presets[k])
  }

  /** Choosing any preset yields a range that ends at `now`, starts no later, and carries the
      chosen caption, so choosing it again finds the same preset. */
  lemma SelectionRoundTrip(current: TimeRange, k: nat, now: int)
    requires k < |Presets|
    ensures OnRangeSelected(current, Presets[k].caption, now).caption == Presets[k].caption
    ensures FindPreset(Presets, OnRangeSelected(current, Presets[k].caption, now).caption) == Some(k)
    ensures OnRangeSelected(current, Presets[k].caption, now).end - OnRangeSelected(current, Presets[k].caption, now).start
      == Presets[k].minutes * MinuteMs
  {
    PresetsOrdered();
    var r := FindPreset(Presets, Presets[k].caption);
    assert r.Some? && r.value == k;
  }

  /** The store starts on a range whose caption 'Last 24 Hours' differs in case from the preset
      'Last 24 hours' that spans the same day, so the lookup does not find it and re-selecting
      the store's own caption changes nothing. */
  lemma InitialCaptionIsNoPreset(now: int, later: int)
    ensures Presets[3].minutes * MinuteMs == Store.DayMs
    ensures Store.InitialState(now).selectedTimeRange.caption != Presets[3].caption
    ensures FindPreset(Presets, Store.InitialState(now).selectedTimeRange.caption).None?
    ensures OnRangeSelected(Store.InitialState(now).selectedTimeRange,
      Store.InitialState(now).selectedTimeRange.caption, later) == Store.InitialState(now).selectedTimeRange
  {
    var caption := Store.InitialState(now).selectedTimeRange.caption;
    assert caption == "Last 24 Hours";
    forall i | 0 <= i < |Presets| ensures Presets[i].caption != caption {
      if i == 3 {
        assert caption[8] != Presets[3].caption[8];
      } else {
        assert |Presets[i].caption| != |caption|;
      }
    }
  }

  // ---------------------------------------------------------------------
  // Alert badges
  // ---------------------------------------------------------------------

  /** A badge with its variant and the number it shows. */
  datatype CountBadge = CountBadge(variant: string, count: nat)

  /** A badge with its variant and its text. */
  datatype TextBadge = TextBadge(variant: string, text: string)

  /** Some alert is both firing and critical. */
  predicate SomeCriticalFiring(alerts: seq<Alert>)
  {
    exists i :: 0 <= i < |alerts| && alerts[i].state == Firing && alerts[i].severity == Critical
  }

  /** The header's critical count is positive exactly when some alert fires at critical severity. */
  lemma CriticalCountPositive(alerts: seq<Alert>)
    ensures |CriticalAlerts(ActiveAlerts(alerts))| > 0 <==> SomeCriticalFiring(alerts)
  {
    var crit := CriticalAlerts(ActiveAlerts(alerts));
    CriticalAreActive(alerts);
    if |crit| > 0 {
      assert crit[0] in crit;
      var i :| 0 <= i < |alerts| && alerts[i] == crit[0];
      assert alerts[i].state == Firing && alerts[i].severity == Critical;
    }
    if SomeCriticalFiring(alerts) {
      var i :| 0 <= i < |alerts| && alerts[i].state == Firing && alerts[i].severity == Critical;
      assert alerts[i] in alerts;
      assert alerts[i] in crit;
    }
  }

  /** The badge on the bell: none without active alerts, otherwise the active count, 'danger'
      when one of them is critical and 'warning' when none is. */
  function BellBadge(alerts: seq<Alert>): (b: Option<CountBadge>)
    ensures b.Some? <==> |ActiveAlerts(alerts)| > 0
    ensures b.Some? ==> b.value.count == |ActiveAlerts(alerts)|
    ensures b.Some? ==> (b.value.variant == "danger" <==> SomeCriticalFiring(alerts))
    ensures b.Some? ==> (b.value.variant == "warning" <==> !SomeCriticalFiring(alerts))
  {
    CriticalCountPositive(alerts);
    var active := ActiveAlerts(alerts);
    if |active| > 0 then
      Some(CountBadge(if |CriticalAlerts(active)| > 0 then "danger" else "warning", |active|))
    else None
  }

  /** The badges under the selector: none without active alerts; otherwise a warning badge
      counting them, followed by a danger badge counting the critical ones when there are any. */
  function FooterBadges(alerts: seq<Alert>): (bs: seq<TextBadge>)
    ensures |bs| == 0 <==> |ActiveAlerts(alerts)| == 0
    ensures |bs| > 0 ==> bs[0] == TextBadge("warning", NatToString(|ActiveAlerts(alerts)|) + " Active Alerts")
    ensures |bs| == 2 <==> SomeCriticalFiring(alerts)
    ensures |bs| == 2 ==> bs[1] == TextBadge("danger", NatToString(|CriticalAlerts(ActiveAlerts(alerts))|) + " Critical")
    ensures |bs| <= 2
  {
    CriticalCountPositive(alerts);
    CriticalAreActive(alerts);
    var active := ActiveAlerts(alerts);
    var critical := CriticalAlerts(active);
    if |active| == 0 then []
    else
      [TextBadge("warning", NatToString(|active|) + " Active Alerts")]
      + (if |critical| > 0 then [TextBadge("danger", NatToString(|critical|) + " Critical")] else [])
  }

  /** The bell and the footer tell the same story: the bell is shown exactly when the footer has
      a badge, it is 'danger' exactly when the footer has the critical badge, and its number is
      the one the footer's first badge writes. */
  lemma BellAgreesWithFooter(alerts: seq<Alert>)
    ensures BellBadge(alerts).Some? <==> |FooterBadges(alerts)| > 0
    ensures BellBadge(alerts).Some? ==>
      (BellBadge(alerts).value.variant == "danger" <==> |FooterBadges(alerts)| == 2)
    ensures BellBadge(alerts).Some? ==>
      FooterBadges(alerts)[0].text == NatToString(BellBadge(alerts).value.count) + " Active Alerts"
  {
  }
}
