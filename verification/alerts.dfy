/** Cooldown-gated alert dispatch (core/alerts.py). */
module Alerts {
  import opened Thresholds
  import Settings

  /** A notification channel; each enabled channel receives every alert that fires. */
  datatype Channel = Console | Email | Desktop

  /** One message handed to one channel: the alert's fields, its priority and when it fired. */
  datatype Dispatch = Dispatch(channel: Channel, metric: string, status: string, value: real,
                               priority: Priority, time: real)

  /** The manager's state: last firing time per alert key, and every message dispatched so far. */
  datatype AlertState = AlertState(lastAlertTime: map<string, real>, log: seq<Dispatch>)

  /** The cooldown key `f"{metric}_{status}"`. */
  function AlertKey(metric: string, status: string): string {
    metric + "_" + status
  }

  function KeyOf(d: Dispatch): string {
    AlertKey(d.metric, d.status)
  }

  /** Would `_can_send_alert(key)` answer true at time `now`? */
  predicate CanFire(last: map<string, real>, key: string, now: real)
    ensures key !in last ==> CanFire(last, key, now)
    ensures key in last ==> (CanFire(last, key, now) <==> now >= last[key] + Settings.ALERT_COOLDOWN_SECONDS)
  {
    key !in last || now - last[key] >= Settings.ALERT_COOLDOWN_SECONDS
  }

  /** Once the cooldown of a key has passed it stays passed. */
  lemma CanFireLater(last: map<string, real>, key: string, now: real, later: real)
    requires CanFire(last, key, now) && now <= later
    ensures CanFire(last, key, later)
  {
  }

  /** The cooldown map after `_can_send_alert(key)` at time `now`: only `key` may change. */
  function AfterCheck(last: map<string, real>, key: string, now: real): (r: map<string, real>)
    ensures CanFire(last, key, now) ==> key in r && r[key] == now
    ensures !CanFire(last, key, now) ==> r == last
    ensures forall k :: k != key ==> (k in r <==> k in last) && (k in last ==> r[k] == last[k])
  {
    if CanFire(last, key, now) then last[key := now] else last
  }

  function NumEnabled(channels: Settings.ChannelFlags): nat {
    (if channels.console then 1 else 0) + (if channels.email then 1 else 0) + (if channels.desktop then 1 else 0)
  }

  predicate Enabled(channels: Settings.ChannelFlags, c: Channel) {
    match c
    case Console => channels.console
    case Email => channels.email
    case Desktop => channels.desktop
  }

  /** The order in which `_send_alert` walks the channels. */
  function ChannelRank(c: Channel): nat {
    match c
    case Console => 0
    case Email => 1
    case Desktop => 2
  }

  /** The messages one firing sends: one per enabled channel, in the order console, email, desktop. */
  function Dispatches(channels: Settings.ChannelFlags, metric: string, status: string, value: real,
                      priority: Priority, now: real): (ds: seq<Dispatch>)
    ensures |ds| == NumEnabled(channels)
    ensures forall i :: 0 <= i < |ds| ==> Enabled(channels, ds[i].channel)
    ensures forall c :: Enabled(channels, c) ==> exists i :: 0 <= i < |ds| && ds[i].channel == c
    ensures forall i, j :: 0 <= i < j < |ds| ==> ChannelRank(ds[i].channel) < ChannelRank(ds[j].channel)
    ensures forall i :: 0 <= i < |ds| ==>
      ds[i].metric == metric && ds[i].status == status && ds[i].value == value
      && ds[i].priority == priority && ds[i].time == now
  {
    var console := if channels.console then [Dispatch(Console, metric, status, value, priority, now)] else [];
    var email := if channels.email then [Dispatch(Email, metric, status, value, priority, now)] else [];
    var desktop := if channels.desktop then [Dispatch(Desktop, metric, status, value, priority, now)] else [];
    var ds := console + email + desktop;
    assert channels.console ==> ds[0].channel == Console;
    assert channels.email ==> ds[|console|].channel == Email;
    assert channels.desktop ==> ds[|console| + |email|].channel == Desktop;
    ds
  }

  /**
   * `trigger_alert(metric, status, value)` at time `now`: nothing when alerting is disabled;
   * otherwise the first alert of a key, or one at least the cooldown after the key last fired,
   * records `now` for that key and reaches every enabled channel; any other alert is suppressed.
   */
  function Trigger(enabled: bool, channels: Settings.ChannelFlags, st: AlertState, alert: AnalysisItem, now: real)
    : (r: AlertState)
    ensures !enabled ==> r == st
    ensures enabled && AlertKey(alert.metric, alert.status) !in st.lastAlertTime ==>
      r.lastAlertTime == st.lastAlertTime[AlertKey(alert.metric, alert.status) := now]
      && |r.log| == |st.log| + NumEnabled(channels)
      && r.log[|st.log|..] == Dispatches(channels, alert.metric, alert.status, alert.value, PriorityFor(alert.status), now)
    ensures enabled && AlertKey(alert.metric, alert.status) in st.lastAlertTime ==>
      var last := st.lastAlertTime[AlertKey(alert.metric, alert.status)];
      if now - last >= Settings.ALERT_COOLDOWN_SECONDS
      then r.lastAlertTime == st.lastAlertTime[AlertKey(alert.metric, alert.status) := now]
           && |r.log| == |st.log| + NumEnabled(channels)
           && r.log[|st.log|..] == Dispatches(channels, alert.metric, alert.status, alert.value, PriorityFor(alert.status), now)
      else r == st
    ensures |st.log| <= |r.log| && r.log[..|st.log|] == st.log
    ensures forall i :: |st.log| <= i < |r.log| ==>
      r.log[i].metric == alert.metric && r.log[i].status == alert.status && r.log[i].value == alert.value
      && r.log[i].time == now && r.log[i].priority == PriorityFor(alert.status)
  {
    if !enabled then st
    else
      var priority := PriorityFor(alert.status);
      var key := AlertKey(alert.metric, alert.status);
      if !CanFire(st.lastAlertTime, key, now) then st
      else AlertState(AfterCheck(st.lastAlertTime, key, now),
                      st.log + Dispatches(channels, alert.metric, alert.status, alert.value, priority, now))
  }

  /** `trigger_bulk_alerts`: `Trigger` applied to each alert in list order. */
  function TriggerAll(enabled: bool, channels: Settings.ChannelFlags, st: AlertState, alerts: seq<AnalysisItem>, now: real)
    : (r: AlertState)
    ensures |st.log| <= |r.log| && r.log[..|st.log|] == st.log
  {
    if alerts == [] then st
    else Trigger(enabled, channels, TriggerAll(enabled, channels, st, alerts[..|alerts| - 1], now), alerts[|alerts| - 1], now)
  }

  /**
   * No alert storm: every dispatched key is recorded no earlier than its messages, and two
   * messages with the same key come from one firing (same time) or lie a full cooldown apart.
   */
  ghost predicate StormFree(st: AlertState) {
    (forall i :: 0 <= i < |st.log| ==>
      KeyOf(st.log[i]) in st.lastAlertTime && st.log[i].time <= st.lastAlertTime[KeyOf(st.log[i])])
    && (forall i, j :: 0 <= i < j < |st.log| && KeyOf(st.log[i]) == KeyOf(st.log[j]) ==>
      st.log[i].time == st.log[j].time || st.log[j].time - st.log[i].time >= Settings.ALERT_COOLDOWN_SECONDS)
  }

  // ---------------------------------------------------------------------------
  // The manager object
  // ---------------------------------------------------------------------------

  class AlertManager {
    /** ENABLE_ALERTS and ALERT_CHANNELS, fixed for the manager's lifetime. */
    const enabled: bool
    const channels: Settings.ChannelFlags
    /** `self.last_alert_time`. */
    var lastAlertTime: map<string, real>
    /** Every message handed to a channel so far. */
    var log: seq<Dispatch>

    function State(): AlertState
      reads this
    {
      AlertState(lastAlertTime, log)
    }

    ghost predicate Valid()
      reads this
    {
      StormFree(State())
    }

    constructor(enabled: bool, channels: Settings.ChannelFlags)
      ensures this.enabled == enabled && this.channels == channels
      ensures lastAlertTime == map[] && log == []
      ensures Valid()
    {
      this.enabled := enabled;
      this.channels := channels;
      lastAlertTime := map[];
      log := [];
    }

    /** `_can_send_alert`: answers whether `key` may fire at `now`, and records `now` if so. */
    method CanSendAlert(key: string, now: real) returns (ok: bool)
      modifies this`lastAlertTime
      ensures ok == CanFire(old(lastAlertTime), key, now)
      ensures lastAlertTime == AfterCheck(old(lastAlertTime), key, now)
    {
      if key !in lastAlertTime {
        lastAlertTime := lastAlertTime[key := now];
        return true;
      }
      var elapsed := now - lastAlertTime[key];
      if elapsed >= Settings.ALERT_COOLDOWN_SECONDS {
        lastAlertTime := lastAlertTime[key := now];
        return true;
      }
      return false;
    }

    /** `trigger_alert`: the cooldown is recorded before any channel is tried. */
    method TriggerAlert(metricName: string, status: string, value: real, now: real)
      requires Valid()
      modifies this
      ensures Valid()
      ensures State() == Trigger(enabled, channels, old(State()), AnalysisItem(metricName, value, status), now)
    {
      ghost var before := State();
      TriggerPreservesStormFree(enabled, channels, before, AnalysisItem(metricName, value, status), now);
      if !enabled {
        return;
      }
      var priority := PriorityFor(status);
      var key := AlertKey(metricName, status);
      var ok := CanSendAlert(key, now);
      if !ok {
        return;
      }
      var sent: seq<Dispatch> := [];
      if channels.console {
        sent := sent + [Dispatch(Console, metricName, status, value, priority, now)];
      }
      if channels.email {
        sent := sent + [Dispatch(Email, metricName, status, value, priority, now)];
      }
      if channels.desktop {
        sent := sent + [Dispatch(Desktop, metricName, status, value, priority, now)];
      }
      assert sent == Dispatches(channels, metricName, status, value, priority, now);
      log := log + sent;
    }

    /** `trigger_bulk_alerts`: `trigger_alert` for each item, in list order. */
    method TriggerBulkAlerts(alerts: seq<AnalysisItem>, now: real)
      requires Valid()
      modifies this
      ensures Valid()
      ensures State() == TriggerAll(enabled, channels, old(State()), alerts, now)
    {
      for k := 0 to |alerts|
        invariant Valid()
        invariant State() == TriggerAll(enabled, channels, old(State()), alerts[..k], now)
      {
        assert alerts[..k + 1][..k] == alerts[..k];
        TriggerAlert(alerts[k].metric, alerts[k].status, alerts[k].value, now);
      }
      assert alerts[..|alerts|] == alerts;
    }
  }

  // ---------------------------------------------------------------------------
  // Properties
  // ---------------------------------------------------------------------------

  /** Every firing keeps the log storm-free. */
  lemma TriggerPreservesStormFree(enabled: bool, channels: Settings.ChannelFlags, st: AlertState, alert: AnalysisItem, now: real)
    requires StormFree(st)
    ensures StormFree(Trigger(enabled, channels, st, alert, now))
  {
    var r := Trigger(enabled, channels, st, alert, now);
    var key := AlertKey(alert.metric, alert.status);
    if r != st {
      var n := |st.log|;
      assert enabled && CanFire(st.lastAlertTime, key, now);
      assert forall i :: n <= i < |r.log| ==> KeyOf(r.log[i]) == key && r.log[i].time == now;
      // every earlier message with this key is at least a cooldown before `now`
      assert forall i :: 0 <= i < n && KeyOf(st.log[i]) == key ==>
        now - st.log[i].time >= Settings.ALERT_COOLDOWN_SECONDS;
      forall i | 0 <= i < |r.log|
        ensures KeyOf(r.log[i]) in r.lastAlertTime && r.log[i].time <= r.lastAlertTime[KeyOf(r.log[i])]
      {
        if i < n {
          assert r.log[i] == st.log[i];
        }
      }
      forall i, j | 0 <= i < j < |r.log| && KeyOf(r.log[i]) == KeyOf(r.log[j])
        ensures r.log[i].time == r.log[j].time || r.log[j].time - r.log[i].time >= Settings.ALERT_COOLDOWN_SECONDS
      {
        if j < n {
          assert r.log[i] == st.log[i] && r.log[j] == st.log[j];
        } else if i < n {
          assert r.log[i] == st.log[i];
        }
      }
    }
  }

  /** A bulk trigger keeps the log storm-free. */
  lemma {:induction false} TriggerAllPreservesStormFree(enabled: bool, channels: Settings.ChannelFlags, st: AlertState,
                                                        alerts: seq<AnalysisItem>, now: real)
    requires StormFree(st)
    ensures StormFree(TriggerAll(enabled, channels, st, alerts, now))
  {
    if alerts != [] {
      TriggerAllPreservesStormFree(enabled, channels, st, alerts[..|alerts| - 1], now);
      TriggerPreservesStormFree(enabled, channels, TriggerAll(enabled, channels, st, alerts[..|alerts| - 1], now),
                                alerts[|alerts| - 1], now);
    }
  }

  /** Two bulk calls at the same time act like one call on the concatenated list. */
  lemma {:induction false} TriggerAllAppend(enabled: bool, channels: Settings.ChannelFlags, st: AlertState,
                                            xs: seq<AnalysisItem>, ys: seq<AnalysisItem>, now: real)
    ensures TriggerAll(enabled, channels, st, xs + ys, now)
         == TriggerAll(enabled, channels, TriggerAll(enabled, channels, st, xs, now), ys, now)
  {
    if ys == [] {
      assert xs + ys == xs;
    } else {
      var init := ys[..|ys| - 1];
      assert (xs + ys)[..|xs + ys| - 1] == xs + init;
      assert (xs + ys)[|xs + ys| - 1] == ys[|ys| - 1];
      TriggerAllAppend(enabled, channels, st, xs, init, now);
    }
  }

  /** No status the classifier produces contains the key separator. */
  lemma TierNamesHaveNoSeparator(t: Tier)
    ensures '_' !in TierName(t)
  {
  }

  /** Position of the last '_' in `k`, or -1. */
  function LastSeparator(k: string): int {
    if k == [] then -1
    else if k[|k| - 1] == '_' then |k| - 1
    else LastSeparator(k[..|k| - 1])
  }

  lemma {:induction false} SeparatorAfterMetric(m: string, s: string)
    requires '_' !in s
    ensures LastSeparator(AlertKey(m, s)) == |m|
  {
    if s != [] {
      var init := s[..|s| - 1];
      assert AlertKey(m, s)[..|AlertKey(m, s)| - 1] == AlertKey(m, init);
      assert '_' !in init by {
        assert forall i :: 0 <= i < |init| ==> init[i] == s[i];
      }
      SeparatorAfterMetric(m, init);
    }
  }

  /** Keys built from statuses without '_' determine their metric and status. */
  lemma AlertKeyInjective(m1: string, s1: string, m2: string, s2: string)
    requires '_' !in s1 && '_' !in s2
    requires AlertKey(m1, s1) == AlertKey(m2, s2)
    ensures m1 == m2 && s1 == s2
  {
    var k := AlertKey(m1, s1);
    SeparatorAfterMetric(m1, s1);
    SeparatorAfterMetric(m2, s2);
    assert |m1| == |m2|;
    assert m1 == k[..|m1|] == m2;
    assert s1 == k[|m1| + 1..] == s2;
  }

  /**
   * Cooldown is per key: firing one classified alert never changes whether an alert for a
   * different metric or a different tier can fire.
   */
  lemma DifferentKeysNeverSuppress(enabled: bool, channels: Settings.ChannelFlags, st: AlertState, a: AnalysisItem,
                                   m: string, t1: Tier, t2: Tier, now: real, later: real)
    requires a.status == TierName(t1)
    requires a.metric != m || t1 != t2
    ensures CanFire(Trigger(enabled, channels, st, a, now).lastAlertTime, AlertKey(m, TierName(t2)), later)
         == CanFire(st.lastAlertTime, AlertKey(m, TierName(t2)), later)
  {
    TierNamesHaveNoSeparator(t1);
    TierNamesHaveNoSeparator(t2);
    if AlertKey(a.metric, a.status) == AlertKey(m, TierName(t2)) {
      AlertKeyInjective(a.metric, a.status, m, TierName(t2));
    }
  }

  /** The cooldown is recorded even when no channel is enabled, so the key still cools down. */
  lemma CooldownWithoutChannels(st: AlertState, a: AnalysisItem, now: real)
    requires CanFire(st.lastAlertTime, AlertKey(a.metric, a.status), now)
    ensures var r := Trigger(true, Settings.ChannelFlags(false, false, false), st, a, now);
      r.log == st.log && r.lastAlertTime[AlertKey(a.metric, a.status)] == now
      && !CanFire(r.lastAlertTime, AlertKey(a.metric, a.status), now + 299.0)
  {
  }

  const EMPTY_STATE := AlertState(map[], [])

  /** The same cpu/critical alert twice, 100 s apart, reaches the console once; 301 s apart, twice. */
  lemma CooldownScenario(t: real)
    ensures var cpu := AnalysisItem("cpu", 95.0, "critical");
      var first := Trigger(true, Settings.ALERT_CHANNELS, EMPTY_STATE, cpu, t);
      |Trigger(true, Settings.ALERT_CHANNELS, first, cpu, t + 100.0).log| == 1
      && |Trigger(true, Settings.ALERT_CHANNELS, first, cpu, t + 301.0).log| == 2
  {
  }

  /** A critical cpu alert does not suppress a simultaneous critical ram alert. */
  lemma IndependenceScenario(t: real)
    ensures var first := Trigger(true, Settings.ALERT_CHANNELS, EMPTY_STATE, AnalysisItem("cpu", 95.0, "critical"), t);
      |Trigger(true, Settings.ALERT_CHANNELS, first, AnalysisItem("ram", 95.0, "critical"), t).log| == 2
  {
    assert AlertKey("cpu", "critical") != AlertKey("ram", "critical") by {
      assert AlertKey("cpu", "critical")[0] != AlertKey("ram", "critical")[0];
    }
  }
}
