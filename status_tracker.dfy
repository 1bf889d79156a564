/**
 * Model of status_tracker.py: a process-wide table of the last time each
 * monitor and each notifier reported in, and the periodic scan that lists
 * those that have been silent for more than 30 minutes.
 *
 * The source keeps the tables as class attributes of a class that refuses
 * to be instantiated; here the one table set is the single instance of
 * `StatusTracker`. Times are integer seconds and `datetime.utcnow()` is the
 * `now` argument. Python dicts iterate in insertion order, and updating an
 * existing key keeps its position, so each table is modelled as a map plus
 * the sequence of its keys in insertion order.
 */
module StatusTracking {
  import opened Wrappers

  /** `timedelta(minutes=30)` in seconds. */
  const StaleAfterSeconds: int := 30 * 60

  /** An alert names the monitor or notifier and its last report time. */
  datatype Alert = Alert(name: string, lastSeen: int)

  /** The key of a monitor in the monitor table: its type, a dash, the user name. */
  function MonitorKey(monitorType: string, username: string): (key: string)
    ensures |key| == |monitorType| + 1 + |username|
    ensures key[..|monitorType|] == monitorType && key[|monitorType|] == '-'
  {
    monitorType + "-" + username
  }

  /** Monitor types without a dash (all the source uses) give distinct keys to distinct (type, user) pairs. */
  lemma MonitorKeyInjective(t1: string, u1: string, t2: string, u2: string)
    requires '-' !in t1 && '-' !in t2
    requires MonitorKey(t1, u1) == MonitorKey(t2, u2)
    ensures t1 == t2 && u1 == u2
  {
    var key := MonitorKey(t1, u1);
    if |t1| < |t2| {
      assert false;
    } else if |t2| < |t1| {
      assert false;
    }
    assert u1 == key[|t1| + 1..] == u2;
  }

  /** The keys of `order` are pairwise distinct and are exactly the keys of `table`. */
  ghost predicate OrderedTable(table: map<string, int>, order: seq<string>)
  {
    && (forall k :: k in table <==> k in order)
    && (forall i, j :: 0 <= i < j < |order| ==> order[i] != order[j])
  }

  /** The table after setting `key` to `time`: a new key goes to the end, an existing one keeps its place. */
  function Updated(order: seq<string>, key: string): (r: seq<string>)
    ensures key in r && forall k :: k in r <==> k in order || k == key
    ensures |order| <= |r| <= |order| + 1 && r[..|order|] == order
    ensures key in order ==> |r| == |order|
  {
    if key in order then order else order + [key]
  }

  lemma UpdatedKeepsOrderedTable(table: map<string, int>, order: seq<string>, key: string, time: int)
    requires OrderedTable(table, order)
    ensures OrderedTable(table[key := time], Updated(order, key))
  {
  }

  /** The entries of `table`, in the order `order`, whose time is strictly before `threshold`. */
  function Alerts(order: seq<string>, table: map<string, int>, threshold: int): seq<Alert>
  {
    if order == [] then []
    else
      var rest := Alerts(order[..|order| - 1], table, threshold);
      var key := order[|order| - 1];
      if key in table && table[key] < threshold then rest + [Alert(key, table[key])] else rest
  }

  /** An alert is raised for exactly the listed entries whose time is before the threshold, with that time. */
  lemma {:induction false} AlertsExact(order: seq<string>, table: map<string, int>, threshold: int)
    ensures forall a :: a in Alerts(order, table, threshold) <==>
      a.name in order && a.name in table && a.lastSeen == table[a.name] && a.lastSeen < threshold
  {
    if order != [] {
      var n := |order|;
      AlertsExact(order[..n - 1], table, threshold);
      assert order == order[..n - 1] + [order[n - 1]];
    }
  }

  /** Alerts keep the table's order: the alerts of a concatenation are the concatenation of the alerts. */
  lemma {:induction false} AlertsAppend(o1: seq<string>, o2: seq<string>, table: map<string, int>, threshold: int)
    ensures Alerts(o1 + o2, table, threshold) == Alerts(o1, table, threshold) + Alerts(o2, table, threshold)
    decreases |o2|
  {
    if o2 == [] {
      assert o1 + o2 == o1;
    } else {
      var n := |o2|;
      assert (o1 + o2)[..|o1 + o2| - 1] == o1 + o2[..n - 1];
      assert (o1 + o2)[|o1 + o2| - 1] == o2[n - 1];
      AlertsAppend(o1, o2[..n - 1], table, threshold);
    }
  }

  /** The monitor and notifier status tables and the time of the last notification. */
  class StatusTracker {
    var monitorsStatus: map<string, int>
    var monitorOrder: seq<string>
    var notifiersStatus: map<string, int>
    var notifierOrder: seq<string>
    var lastNotifyTime: int

    ghost predicate Valid()
      reads this
    {
      OrderedTable(monitorsStatus, monitorOrder) && OrderedTable(notifiersStatus, notifierOrder)
    }

    /** The class attributes: empty tables, and the last notify time set when the class is created. */
    constructor(now: int)
      ensures Valid()
      ensures monitorsStatus == map[] && monitorOrder == [] && notifiersStatus == map[] && notifierOrder == []
      ensures lastNotifyTime == now
    {
      monitorsStatus, monitorOrder := map[], [];
      notifiersStatus, notifierOrder := map[], [];
      lastNotifyTime := now;
    }

    /** `update_monitor_status`: records `now` for this monitor; every other entry is unchanged. */
    method UpdateMonitorStatus(monitorType: string, username: string, now: int)
      requires Valid()
      modifies this
      ensures Valid()
      ensures monitorsStatus == old(monitorsStatus)[MonitorKey(monitorType, username) := now]
      ensures monitorOrder == Updated(old(monitorOrder), MonitorKey(monitorType, username))
      ensures notifiersStatus == old(notifiersStatus) && notifierOrder == old(notifierOrder)
      ensures lastNotifyTime == old(lastNotifyTime)
    {
      var key := MonitorKey(monitorType, username);
      UpdatedKeepsOrderedTable(monitorsStatus, monitorOrder, key, now);
      monitorsStatus := monitorsStatus[key := now];
      monitorOrder := Updated(monitorOrder, key);
    }

    /** `get_monitor_status`: the recorded time, or None for a monitor that never reported. */
    function GetMonitorStatus(monitorType: string, username: string): (r: Option<int>)
      reads this
      ensures r.None? <==> MonitorKey(monitorType, username) !in monitorsStatus
      ensures r.Some? ==> r.value == monitorsStatus[MonitorKey(monitorType, username)]
    {
      var key := MonitorKey(monitorType, username);
      if key in monitorsStatus then Some(monitorsStatus[key]) else None
    }

    /** `update_notifier_status`: records `now` for this notifier; every other entry is unchanged. */
    method UpdateNotifierStatus(notifier: string, now: int)
      requires Valid()
      modifies this
      ensures Valid()
      ensures notifiersStatus == old(notifiersStatus)[notifier := now]
      ensures notifierOrder == Updated(old(notifierOrder), notifier)
      ensures monitorsStatus == old(monitorsStatus) && monitorOrder == old(monitorOrder)
      ensures lastNotifyTime == old(lastNotifyTime)
    {
      UpdatedKeepsOrderedTable(notifiersStatus, notifierOrder, notifier, now);
      notifiersStatus := notifiersStatus[notifier := now];
      notifierOrder := Updated(notifierOrder, notifier);
    }

    /** `get_notifier_status`: the recorded time, or None for a notifier that never reported. */
    function GetNotifierStatus(notifier: string): (r: Option<int>)
      reads this
      ensures r.None? <==> notifier !in notifiersStatus
      ensures r.Some? ==> r.value == notifiersStatus[notifier]
    {
      if notifier in notifiersStatus then Some(notifiersStatus[notifier]) else None
    }

    /** `update_last_notify_time`: only the last notify time changes. */
    method UpdateLastNotifyTime(now: int)
      requires Valid()
      modifies this`lastNotifyTime
      ensures Valid() && lastNotifyTime == now
    {
      lastNotifyTime := now;
    }

    /**
     * `check` without its log lines: the monitors silent since before
     * `now - 30 min`, then the notifiers silent since before
     * `lastNotifyTime - 30 min`, each in table order. Nothing is modified.
     */
    method Check(now: int) returns (alerts: seq<Alert>)
      ensures alerts == Alerts(monitorOrder, monitorsStatus, now - StaleAfterSeconds)
                        + Alerts(notifierOrder, notifiersStatus, lastNotifyTime - StaleAfterSeconds)
    {
      alerts := [];
      var monitorTimeThreshold := now - StaleAfterSeconds;
      for i := 0 to |monitorOrder|
        invariant alerts == Alerts(monitorOrder[..i], monitorsStatus, monitorTimeThreshold)
      {
        assert monitorOrder[..i + 1][..i] == monitorOrder[..i];
        var name := monitorOrder[i];
        if name in monitorsStatus && monitorsStatus[name] < monitorTimeThreshold {
          alerts := alerts + [Alert(name, monitorsStatus[name])];
        }
      }
      assert monitorOrder[..|monitorOrder|] == monitorOrder;
      ghost var monitorAlerts := alerts;
      var notifierTimeThreshold := lastNotifyTime - StaleAfterSeconds;
      for i := 0 to |notifierOrder|
        invariant alerts == monitorAlerts + Alerts(notifierOrder[..i], notifiersStatus, notifierTimeThreshold)
      {
        assert notifierOrder[..i + 1][..i] == notifierOrder[..i];
        var name := notifierOrder[i];
        if name in notifiersStatus && notifiersStatus[name] < notifierTimeThreshold {
          alerts := alerts + [Alert(name, notifiersStatus[name])];
        }
      }
      assert notifierOrder[..|notifierOrder|] == notifierOrder;
    }

    /**
     * `check` as written: it first logs `json.dumps` of each table, whose
     * values are datetimes, which JSON cannot serialise; so it raises
     * (None here) as soon as either table has an entry.
     */
    method CheckAsWritten(now: int) returns (r: Option<seq<Alert>>)
      ensures r.None? <==> monitorsStatus != map[] || notifiersStatus != map[]
      ensures r.Some? ==> r.value == []
    {
      if !JsonDumpsSucceeds(monitorsStatus) || !JsonDumpsSucceeds(notifiersStatus) {
        return None;
      }
      var alerts := Check(now);
      AlertsOfEmptyTable(monitorOrder, now - StaleAfterSeconds);
      AlertsOfEmptyTable(notifierOrder, lastNotifyTime - StaleAfterSeconds);
      return Some(alerts);
    }
  }

  lemma {:induction false} AlertsOfEmptyTable(order: seq<string>, threshold: int)
    ensures Alerts(order, map[], threshold) == []
  {
    if order != [] {
      AlertsOfEmptyTable(order[..|order| - 1], threshold);
    }
  }

  /** `json.dumps` of a table of datetimes succeeds only when the table is empty. */
  predicate JsonDumpsSucceeds(table: map<string, int>)
  {
    table == map[]
  }

  /** The monitors alerted by `check` are exactly those whose last report is before `now - 30 min`. */
  lemma CheckMonitorsExact(tracker: StatusTracker, now: int, k: string)
    requires tracker.Valid()
    ensures (exists a :: a in Alerts(tracker.monitorOrder, tracker.monitorsStatus, now - StaleAfterSeconds) && a.name == k)
      <==> k in tracker.monitorsStatus && tracker.monitorsStatus[k] < now - StaleAfterSeconds
  {
    var threshold := now - StaleAfterSeconds;
    AlertsExact(tracker.monitorOrder, tracker.monitorsStatus, threshold);
    if k in tracker.monitorsStatus && tracker.monitorsStatus[k] < threshold {
      assert Alert(k, tracker.monitorsStatus[k]) in Alerts(tracker.monitorOrder, tracker.monitorsStatus, threshold);
    }
  }

  /** The notifiers alerted are exactly those whose last report is before `lastNotifyTime - 30 min`, whatever `now` is. */
  lemma CheckNotifiersExact(tracker: StatusTracker, k: string)
    requires tracker.Valid()
    ensures (exists a :: a in Alerts(tracker.notifierOrder, tracker.notifiersStatus, tracker.lastNotifyTime - StaleAfterSeconds) && a.name == k)
      <==> k in tracker.notifiersStatus && tracker.notifiersStatus[k] < tracker.lastNotifyTime - StaleAfterSeconds
  {
    var threshold := tracker.lastNotifyTime - StaleAfterSeconds;
    AlertsExact(tracker.notifierOrder, tracker.notifiersStatus, threshold);
    if k in tracker.notifiersStatus && tracker.notifiersStatus[k] < threshold {
      assert Alert(k, tracker.notifiersStatus[k]) in Alerts(tracker.notifierOrder, tracker.notifiersStatus, threshold);
    }
  }

  /** A monitor that has just reported is never alerted. */
  lemma FreshReportNotAlerted(order: seq<string>, table: map<string, int>, key: string, now: int)
    ensures forall a :: a in Alerts(Updated(order, key), table[key := now], now - StaleAfterSeconds) ==> a.name != key
  {
    AlertsExact(Updated(order, key), table[key := now], now - StaleAfterSeconds);
  }
}
