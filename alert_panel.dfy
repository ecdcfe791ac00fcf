/** The alert side panel (src/components/AlertPanel.tsx): the split into
    active and resolved alerts, the short resolved list, the "time ago"
    rendering, and the severity tones. */
module AlertPanel {
  import opened Types
  import Decimal

  /** alerts.filter(alert => alert.resolved === resolved), keeping order. */
  function WithResolved(alerts: seq<Alert>, resolved: bool): (r: seq<Alert>)
    ensures forall a :: a in r <==> a in alerts && a.resolved == resolved
    ensures |r| <= |alerts|
  {
    if alerts == [] then []
    else (if alerts[0].resolved == resolved then [alerts[0]] else []) + WithResolved(alerts[1..], resolved)
  }

  function ActiveAlerts(alerts: seq<Alert>): seq<Alert>
  {
    WithResolved(alerts, false)
  }

  function ResolvedAlerts(alerts: seq<Alert>): seq<Alert>
  {
    WithResolved(alerts, true)
  }

  /** sub is s with some elements dropped and the rest in their order. */
  predicate IsSubsequence(sub: seq<Alert>, s: seq<Alert>)
    decreases |s|
  {
    if sub == [] then true
    else if s == [] then false
    else (sub[0] == s[0] && IsSubsequence(sub[1..], s[1..])) || IsSubsequence(sub, s[1..])
  }

  lemma {:induction false} FilterKeepsOrder(alerts: seq<Alert>, resolved: bool)
    ensures IsSubsequence(WithResolved(alerts, resolved), alerts)
  {
    if alerts != [] {
      var rest := WithResolved(alerts[1..], resolved);
      FilterKeepsOrder(alerts[1..], resolved);
      if alerts[0].resolved == resolved {
        var sub := WithResolved(alerts, resolved);
        assert sub == [alerts[0]] + rest;
        assert sub[0] == alerts[0] && sub[1..] == rest;
      } else {
        assert WithResolved(alerts, resolved) == rest;
      }
    }
  }

  lemma {:induction false} FilterSplitsMultiset(alerts: seq<Alert>)
    ensures multiset(WithResolved(alerts, false)) + multiset(WithResolved(alerts, true)) == multiset(alerts)
  {
    if alerts != [] {
      var a, tail := alerts[0], alerts[1..];
      var active, resolved := WithResolved(tail, false), WithResolved(tail, true);
      FilterSplitsMultiset(tail);
      assert alerts == [a] + tail;
      assert multiset(alerts) == multiset{a} + multiset(tail);
      if a.resolved {
        assert WithResolved(alerts, false) == active;
        assert WithResolved(alerts, true) == [a] + resolved;
        assert multiset([a] + resolved) == multiset{a} + multiset(resolved);
      } else {
        assert WithResolved(alerts, false) == [a] + active;
        assert WithResolved(alerts, true) == resolved;
        assert multiset([a] + active) == multiset{a} + multiset(active);
      }
    }
  }

  /** The two lists partition the alerts: together they hold every alert as
      often as it occurs, their sizes add up, and each keeps the order. */
  lemma PartitionAlerts(alerts: seq<Alert>)
    ensures multiset(ActiveAlerts(alerts)) + multiset(ResolvedAlerts(alerts)) == multiset(alerts)
    ensures |ActiveAlerts(alerts)| + |ResolvedAlerts(alerts)| == |alerts|
    ensures IsSubsequence(ActiveAlerts(alerts), alerts) && IsSubsequence(ResolvedAlerts(alerts), alerts)
  {
    FilterSplitsMultiset(alerts);
    assert |multiset(alerts)| == |alerts|;
    FilterKeepsOrder(alerts, false);
    FilterKeepsOrder(alerts, true);
  }

  /** The "No alerts at this time" placeholder is shown iff there are no alerts. */
  predicate ShowsNoAlerts(alerts: seq<Alert>)
  {
    |ActiveAlerts(alerts)| == 0 && |ResolvedAlerts(alerts)| == 0
  }

  lemma NoAlertsIffEmpty(alerts: seq<Alert>)
    ensures ShowsNoAlerts(alerts) <==> alerts == []
  {
    PartitionAlerts(alerts);
  }

  /** resolvedAlerts.slice(0, 3): the first three resolved alerts, in order. */
  function ShownResolved(alerts: seq<Alert>): (r: seq<Alert>)
    ensures |r| == if |ResolvedAlerts(alerts)| < 3 then |ResolvedAlerts(alerts)| else 3
    ensures r == ResolvedAlerts(alerts)[..|r|]
    ensures forall a :: a in r ==> a in alerts && a.resolved
  {
    var resolved := ResolvedAlerts(alerts);
    if |resolved| <= 3 then resolved else resolved[..3]
  }

  /** formatTimeAgo: whole minutes below an hour, whole hours from then on. */
  function FormatTimeAgo(nowMs: int, timestamp: int): (r: string)
    ensures |r| > 5
    ensures r[|r| - 5..] == if nowMs - timestamp < 3600000 then "m ago" else "h ago"
  {
    var minutes := (nowMs - timestamp) / 60000;
    assert minutes < 60 <==> nowMs - timestamp < 3600000;
    var n := if minutes < 60 then minutes else minutes / 60;
    var unit := if minutes < 60 then "m ago" else "h ago";
    var r := Decimal.Show(n) + unit;
    assert r[|r| - 5..] == unit;
    r
  }

  /** What the rendered string says: the unit is minutes iff less than an
      hour has passed, and the number is the elapsed time floored to that unit. */
  lemma TimeAgoMeaning(nowMs: int, timestamp: int)
    ensures var r := FormatTimeAgo(nowMs, timestamp);
      && |r| > 5
      && r[|r| - 5..] == (if nowMs - timestamp < 3600000 then "m ago" else "h ago")
      && Decimal.Parse(r[..|r| - 5]).Some?
      && var n := Decimal.Parse(r[..|r| - 5]).value;
         if nowMs - timestamp < 3600000
         then n * 60000 <= nowMs - timestamp < n * 60000 + 60000
         else 1 <= n && n * 3600000 <= nowMs - timestamp < n * 3600000 + 3600000
  {
    var elapsed := nowMs - timestamp;
    var minutes := elapsed / 60000;
    var n := if minutes < 60 then minutes else minutes / 60;
    var unit := if minutes < 60 then "m ago" else "h ago";
    var r := FormatTimeAgo(nowMs, timestamp);
    assert r == Decimal.Show(n) + unit;
    assert r[|r| - 5..] == unit;
    assert r[..|r| - 5] == Decimal.Show(n);
    Decimal.ParseShow(n);
    assert 60000 * minutes <= elapsed < 60000 * minutes + 60000;
    assert minutes < 60 <==> elapsed < 3600000;
    if minutes >= 60 {
      assert 60 * n <= minutes < 60 * n + 60;
    }
  }

  /** The colour scheme of an alert card. */
  datatype Tone = Muted | RedTone | YellowTone | BlueTone

  /** getSeverityColor: a resolved alert is muted whatever its severity. */
  function SeverityTone(severity: Severity, resolved: bool): (t: Tone)
    ensures t == Muted <==> resolved
    ensures !resolved ==> (t == RedTone <==> severity == High)
  {
    if resolved then Muted
    else match severity
      case High => RedTone
      case Medium => YellowTone
      case Low => BlueTone
  }

  /** getSeverityIcon: a check mark when resolved, else a triangle in the severity's tone. */
  datatype Icon = CheckCircle | Triangle(tone: Tone)

  function SeverityIcon(severity: Severity, resolved: bool): (i: Icon)
    ensures i == CheckCircle <==> resolved
    ensures !resolved ==> i.tone == SeverityTone(severity, false)
  {
    if resolved then CheckCircle else Triangle(SeverityTone(severity, false))
  }

  /** Resolution overrides severity; while unresolved, each severity has its own look. */
  lemma ResolvedOverridesSeverity(s1: Severity, s2: Severity)
    ensures SeverityTone(s1, true) == SeverityTone(s2, true)
    ensures SeverityIcon(s1, true) == SeverityIcon(s2, true)
    ensures s1 != s2 ==> SeverityTone(s1, false) != SeverityTone(s2, false)
    ensures s1 != s2 ==> SeverityIcon(s1, false) != SeverityIcon(s2, false)
  {
  }
}
