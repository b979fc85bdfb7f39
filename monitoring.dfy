/**
 * Performance monitoring: alert rules compare a metric against a threshold,
 * the alert manager keeps one active alert per rule and a history of every
 * alert raised, and the time series store keeps a bounded window of points
 * per metric.
 *
 * Metric values and thresholds are integers here. An alert is an object
 * because resolving it is seen through both the active table and the
 * history, which share it.
 */
module Monitoring {
  import opened Wrappers
  import PyDict
  import Seqs

  datatype AlertSeverity = LOW | MEDIUM | HIGH | CRITICAL

  datatype AlertRule = AlertRule(name: string, metricName: string, threshold: int, operator: string, severity: AlertSeverity)

  /** `AlertRule.evaluate`: the six comparison operators; any other operator never fires. */
  function Evaluate(rule: AlertRule, value: int): (r: bool)
    ensures rule.operator == ">" ==> (r <==> value > rule.threshold)
    ensures rule.operator == "<" ==> (r <==> value < rule.threshold)
    ensures rule.operator == ">=" ==> (r <==> value >= rule.threshold)
    ensures rule.operator == "<=" ==> (r <==> value <= rule.threshold)
    ensures rule.operator == "==" ==> (r <==> value == rule.threshold)
    ensures rule.operator == "!=" ==> (r <==> value != rule.threshold)
    ensures rule.operator !in {">", "<", ">=", "<=", "==", "!="} ==> !r
  {
    match rule.operator
    case ">" => value > rule.threshold
    case "<" => value < rule.threshold
    case ">=" => value >= rule.threshold
    case "<=" => value <= rule.threshold
    case "==" => value == rule.threshold
    case "!=" => value != rule.threshold
    case _ => false
  }

  /** The operator that fires exactly when `op` does not. */
  function Negated(op: string): string
  {
    match op
    case ">" => "<="
    case "<=" => ">"
    case "<" => ">="
    case ">=" => "<"
    case "==" => "!="
    case "!=" => "=="
    case _ => op
  }

  /** For each of the six operators, a rule and the rule with the negated operator never agree. */
  lemma NegatedOperator(rule: AlertRule, value: int)
    requires rule.operator in {">", "<", ">=", "<=", "==", "!="}
    ensures Evaluate(rule.(operator := Negated(rule.operator)), value) == !Evaluate(rule, value)
    ensures Negated(Negated(rule.operator)) == rule.operator
  {
  }

  /** An alert as `Alert` records it; `resolved` and `resolvedAt` change when its rule stops firing. */
  datatype Alert = Alert(ruleName: string, metricName: string, currentValue: int, threshold: int,
                         severity: AlertSeverity, timestamp: int, resolved: bool, resolvedAt: Option<int>)

  /** The alert a rule registered under `name` raises on `value`. */
  function Raise(name: string, rule: AlertRule, value: int, now: int): Alert
  {
    Alert(name, rule.metricName, value, rule.threshold, rule.severity, now, false, None)
  }

  /**
   * The manager's alert state: `history` holds every alert raised, in
   * order; `active` maps a rule to the position of its alert in the history
   * (the active table and the history share the alert); `notified` lists
   * the positions of the alerts handed to the handlers, in order. Every
   * handler is called for each, whatever the others raise.
   */
  datatype Alerts = Alerts(active: map<string, nat>, history: seq<Alert>, notified: seq<nat>)

  /** Every active alert is in the history under its own rule's name and unresolved. */
  predicate ActiveOk(a: Alerts)
  {
    forall n :: n in a.active ==>
      a.active[n] < |a.history| && a.history[a.active[n]].ruleName == n && !a.history[a.active[n]].resolved
  }

  /** Each active alert carries its rule's name, so there are as many of them as active rules. */
  lemma {:induction false} ActiveCount(a: Alerts)
    requires ActiveOk(a)
    ensures |set n | n in a.active :: a.history[a.active[n]]| == |a.active|
    decreases |a.active|
  {
    if a.active != map[] {
      var k :| k in a.active;
      var rest := a.(active := a.active - {k});
      ActiveCount(rest);
      var all := set n | n in a.active :: a.history[a.active[n]];
      var others := set n | n in rest.active :: a.history[rest.active[n]];
      forall x | x in all
        ensures x in others || x == a.history[a.active[k]]
      {
        var n :| n in a.active && x == a.history[a.active[n]];
        if n != k {
          assert n in rest.active;
        }
      }
      assert all == others + {a.history[a.active[k]]};
      assert a.history[a.active[k]] !in others;
      assert |a.active| == |rest.active| + 1;
    }
  }

  /** The rule's metric is reported and the rule fires on it. */
  predicate Triggered(rule: AlertRule, metrics: map<string, int>)
  {
    rule.metricName in metrics && Evaluate(rule, metrics[rule.metricName])
  }

  /** The rule's metric is reported and the rule does not fire on it. */
  predicate Cleared(rule: AlertRule, metrics: map<string, int>)
  {
    rule.metricName in metrics && !Evaluate(rule, metrics[rule.metricName])
  }

  /** One iteration of `evaluate_rules`, for the rule registered under `n`. */
  function EvaluateOne(a: Alerts, n: string, rule: AlertRule, metrics: map<string, int>, now: int): (r: Alerts)
    requires ActiveOk(a)
    ensures ActiveOk(r)
    ensures |r.history| == |a.history| + (if Triggered(rule, metrics) && n !in a.active then 1 else 0)
    ensures forall m :: m != n ==> (m in r.active <==> m in a.active) && (m in r.active ==> r.active[m] == a.active[m])
  {
    if rule.metricName !in metrics then a
    else
      var value := metrics[rule.metricName];
      if Evaluate(rule, value) then
        if n in a.active then a
        else Alerts(a.active[n := |a.history|], a.history + [Raise(n, rule, value, now)], a.notified + [|a.history|])
      else if n in a.active then
        var k := a.active[n];
        Alerts(a.active - {n}, a.history[k := a.history[k].(resolved := true, resolvedAt := Some(now))], a.notified + [k])
      else a
  }

  /** `evaluate_rules` over the rule names `names`, in order. */
  function EvaluateAll(a: Alerts, names: seq<string>, rules: map<string, AlertRule>, metrics: map<string, int>, now: int)
    : (r: Alerts)
    requires ActiveOk(a) && forall n :: n in names ==> n in rules
    ensures ActiveOk(r)
    ensures |r.history| >= |a.history|
    ensures forall m :: m !in names ==> (m in r.active <==> m in a.active) && (m in r.active ==> r.active[m] == a.active[m])
    decreases |names|
  {
    if names == [] then a
    else
      var last := names[|names| - 1];
      EvaluateOne(EvaluateAll(a, names[..|names| - 1], rules, metrics, now), last, rules[last], metrics, now)
  }

  /** The rule registered under `n` fires and had no active alert before. */
  predicate NewAlert(n: string, rules: map<string, AlertRule>, metrics: map<string, int>, was: set<string>)
  {
    n in rules && Triggered(rules[n], metrics) && n !in was
  }

  /** Evaluating one more name of `names` is one more step. */
  lemma EvaluateAllStep(a: Alerts, names: seq<string>, i: nat, rules: map<string, AlertRule>,
                        metrics: map<string, int>, now: int)
    requires ActiveOk(a) && i < |names| && forall n :: n in names ==> n in rules
    ensures EvaluateAll(a, names[..i + 1], rules, metrics, now)
      == EvaluateOne(EvaluateAll(a, names[..i], rules, metrics, now), names[i], rules[names[i]], metrics, now)
  {
    assert names[..i + 1][..i] == names[..i];
  }

  /** The names of `names`, in order, whose rule fires and had no active alert before. */
  function NewlyTriggered(names: seq<string>, rules: map<string, AlertRule>, metrics: map<string, int>, was: set<string>)
    : (r: seq<string>)
    ensures |r| <= |names|
    ensures forall n :: n in r <==> n in names && NewAlert(n, rules, metrics, was)
    decreases |names|
  {
    if names == [] then []
    else
      var last := names[|names| - 1];
      NewlyTriggered(names[..|names| - 1], rules, metrics, was) + (if NewAlert(last, rules, metrics, was) then [last] else [])
  }

  /** The alerts raised for `names`. */
  function Raised(names: seq<string>, rules: map<string, AlertRule>, metrics: map<string, int>, now: int): seq<Alert>
    requires forall n :: n in names ==> n in rules && rules[n].metricName in metrics
  {
    seq(|names|, i requires 0 <= i < |names| => Raise(names[i], rules[names[i]], metrics[rules[names[i]].metricName], now))
  }

  lemma RaisedSnoc(names: seq<string>, n: string, rules: map<string, AlertRule>, metrics: map<string, int>, now: int)
    requires forall m :: m in names + [n] ==> m in rules && rules[m].metricName in metrics
    ensures Raised(names + [n], rules, metrics, now) ==
      Raised(names, rules, metrics, now) + [Raise(n, rules[n], metrics[rules[n].metricName], now)]
  {
  }

  /**
   * Over distinct rule names, `evaluate_rules` appends to the history
   * exactly one new alert per rule that fires without an active alert, in
   * rule order.
   */
  lemma {:induction false} EvaluateAllHistory(a: Alerts, names: seq<string>, rules: map<string, AlertRule>,
                                              metrics: map<string, int>, now: int)
    requires ActiveOk(a) && PyDict.Distinct(names) && forall n :: n in names ==> n in rules
    ensures var r := EvaluateAll(a, names, rules, metrics, now);
      var added := NewlyTriggered(names, rules, metrics, a.active.Keys);
      |r.history| == |a.history| + |added| && r.history[|a.history|..] == Raised(added, rules, metrics, now)
    decreases |names|
  {
    if names != [] {
      var init := names[..|names| - 1];
      var last := names[|names| - 1];
      assert last !in init by {
        assert names == init + [last];
      }
      EvaluateAllHistory(a, init, rules, metrics, now);
      var mid := EvaluateAll(a, init, rules, metrics, now);
      OneHistory(mid, last, rules[last], metrics, now, |a.history|);
      var fr := NewlyTriggered(init, rules, metrics, a.active.Keys);
      if NewAlert(last, rules, metrics, a.active.Keys) {
        RaisedSnoc(fr, last, rules, metrics, now);
      }
    }
  }

  /** One step only appends past `base` when no alert of the step's rule lies there. */
  lemma OneHistory(a: Alerts, n: string, rule: AlertRule, metrics: map<string, int>, now: int, base: nat)
    requires ActiveOk(a) && base <= |a.history| && (n in a.active ==> a.active[n] < base)
    ensures var r := EvaluateOne(a, n, rule, metrics, now);
      r.history[base..] == a.history[base..] +
        (if Triggered(rule, metrics) && n !in a.active then [Raise(n, rule, metrics[rule.metricName], now)] else [])
  {
    var r := EvaluateOne(a, n, rule, metrics, now);
    if Cleared(rule, metrics) && n in a.active {
      assert r.history[base..] == a.history[base..];
    }
  }

  /**
   * Over distinct rule names, after `evaluate_rules` a firing rule has an
   * active alert: the same one if it had one.
   */
  lemma {:induction false} EvaluateAllFiring(a: Alerts, names: seq<string>, rules: map<string, AlertRule>,
                                             metrics: map<string, int>, now: int)
    requires ActiveOk(a) && PyDict.Distinct(names) && forall n :: n in names ==> n in rules
    ensures var r := EvaluateAll(a, names, rules, metrics, now);
      forall n :: n in names && Triggered(rules[n], metrics) ==>
        n in r.active && (n in a.active ==> r.active[n] == a.active[n])
    decreases |names|
  {
    if names != [] {
      var init := names[..|names| - 1];
      var last := names[|names| - 1];
      assert names == init + [last];
      assert last !in init;
      EvaluateAllFiring(a, init, rules, metrics, now);
    }
  }

  /** A rule whose metric is reported and no longer fires loses its active alert, which is resolved at `now`. */
  lemma {:induction false} EvaluateAllClearing(a: Alerts, names: seq<string>, rules: map<string, AlertRule>,
                                               metrics: map<string, int>, now: int)
    requires ActiveOk(a) && PyDict.Distinct(names) && forall n :: n in names ==> n in rules
    ensures var r := EvaluateAll(a, names, rules, metrics, now);
      forall n :: n in names && Cleared(rules[n], metrics) ==>
        n !in r.active
        && (n in a.active ==> r.history[a.active[n]].resolved && r.history[a.active[n]].resolvedAt == Some(now))
    decreases |names|
  {
    if names != [] {
      var init := names[..|names| - 1];
      var last := names[|names| - 1];
      assert names == init + [last];
      assert last !in init;
      EvaluateAllClearing(a, init, rules, metrics, now);
      var mid := EvaluateAll(a, init, rules, metrics, now);
      OneKeepsResolved(mid, last, rules[last], metrics, now);
      var r := EvaluateOne(mid, last, rules[last], metrics, now);
      assert r == EvaluateAll(a, names, rules, metrics, now);
      forall n | n in names && Cleared(rules[n], metrics)
        ensures n !in r.active
        ensures n in a.active ==> r.history[a.active[n]].resolved && r.history[a.active[n]].resolvedAt == Some(now)
      {
        if n != last {
          assert n in init;
        }
      }
    }
  }

  /** One step resolves the alert of a rule that stops firing and leaves resolved alerts alone. */
  lemma OneKeepsResolved(a: Alerts, n: string, rule: AlertRule, metrics: map<string, int>, now: int)
    requires ActiveOk(a)
    ensures var r := EvaluateOne(a, n, rule, metrics, now);
      forall i :: 0 <= i < |a.history| && a.history[i].resolved ==> r.history[i] == a.history[i]
    ensures var r := EvaluateOne(a, n, rule, metrics, now);
      Cleared(rule, metrics) && n in a.active ==>
        r.history[a.active[n]].resolved && r.history[a.active[n]].resolvedAt == Some(now)
  {
  }

  /** A rule whose metric is not reported keeps its active alert, or its lack of one. */
  lemma {:induction false} EvaluateAllUnreported(a: Alerts, names: seq<string>, rules: map<string, AlertRule>,
                                                 metrics: map<string, int>, now: int)
    requires ActiveOk(a) && PyDict.Distinct(names) && forall n :: n in names ==> n in rules
    ensures var r := EvaluateAll(a, names, rules, metrics, now);
      forall n :: n in names && rules[n].metricName !in metrics ==>
        (n in r.active <==> n in a.active) && (n in r.active ==> r.active[n] == a.active[n])
    decreases |names|
  {
    if names != [] {
      var init := names[..|names| - 1];
      var last := names[|names| - 1];
      assert names == init + [last];
      assert last !in init;
      EvaluateAllUnreported(a, init, rules, metrics, now);
    }
  }

  /**
   * `evaluate_rules` keeps every earlier alert, except that it may resolve
   * an unresolved one at `now`; an alert already resolved is never touched.
   */
  lemma {:induction false} HistoryGrows(a: Alerts, names: seq<string>, rules: map<string, AlertRule>,
                                        metrics: map<string, int>, now: int)
    requires ActiveOk(a) && forall n :: n in names ==> n in rules
    ensures var r := EvaluateAll(a, names, rules, metrics, now);
      forall i :: 0 <= i < |a.history| ==>
        r.history[i] == a.history[i]
        || (!a.history[i].resolved && r.history[i] == a.history[i].(resolved := true, resolvedAt := Some(now)))
    decreases |names|
  {
    if names != [] {
      HistoryGrows(a, names[..|names| - 1], rules, metrics, now);
    }
  }

  class AlertManager {
    var rules: PyDict.Dict<string, AlertRule>
    var active: map<string, nat>
    var history: seq<Alert>
    var notified: seq<nat>

    function Model(): Alerts
      reads this
    {
      Alerts(active, history, notified)
    }

    /** Rules are keyed in order, and an active alert belongs to a registered rule. */
    ghost predicate Valid()
      reads this
    {
      PyDict.Wf(rules) && active.Keys <= rules.vals.Keys && ActiveOk(Model())
    }

    constructor ()
      ensures Valid() && rules == PyDict.Empty() && Model() == Alerts(map[], [], [])
    {
      rules := PyDict.Empty();
      active := map[];
      history := [];
      notified := [];
    }

    /** `add_rule`: registers or replaces the rule under its name. */
    method AddRule(rule: AlertRule)
      requires Valid()
      modifies this
      ensures Valid()
      ensures rules == PyDict.Put(old(rules), rule.name, rule) && Model() == old(Model())
    {
      rules := PyDict.Put(rules, rule.name, rule);
    }

    /** `remove_rule`: drops the rule and its active alert, which stays unresolved in the history. */
    method RemoveRule(name: string)
      requires Valid()
      modifies this
      ensures Valid()
      ensures rules == PyDict.Remove(old(rules), name) && active == old(active) - {name}
      ensures name !in rules.vals && name !in active
      ensures history == old(history) && notified == old(notified)
    {
      PyDict.RemoveWf(rules, name);
      rules := PyDict.Remove(rules, name);
      active := active - {name};
    }

    /** `evaluate_rules`: every registered rule, in registration order. */
    method EvaluateRules(metrics: map<string, int>, now: int)
      requires Valid()
      modifies this
      ensures Valid() && rules == old(rules)
      ensures Model() == EvaluateAll(old(Model()), rules.keys, rules.vals, metrics, now)
    {
      var names := rules.keys;
      var i := 0;
      while i < |names|
        invariant 0 <= i <= |names| && rules == old(rules) && Valid()
        invariant Model() == EvaluateAll(old(Model()), names[..i], rules.vals, metrics, now)
      {
        EvaluateAllStep(old(Model()), names, i, rules.vals, metrics, now);
        EvaluateRule(names[i], metrics, now);
        i := i + 1;
      }
      assert names[..i] == names;
    }

    /** One iteration of `evaluate_rules`, for the rule registered under `n`. */
    method EvaluateRule(n: string, metrics: map<string, int>, now: int)
      requires Valid() && n in rules.vals
      modifies this
      ensures Valid() && rules == old(rules)
      ensures Model() == EvaluateOne(old(Model()), n, rules.vals[n], metrics, now)
    {
      var rule := rules.vals[n];
      if rule.metricName in metrics {
        var value := metrics[rule.metricName];
        if Evaluate(rule, value) {
          if n !in active {
            active := active[n := |history|];
            notified := notified + [|history|];
            history := history + [Raise(n, rule, value, now)];
          }
        } else if n in active {
          var k := active[n];
          history := history[k := history[k].(resolved := true, resolvedAt := Some(now))];
          active := active - {n};
          notified := notified + [k];
        }
      }
    }

    /** `get_active_alerts`: the alerts of the active table. */
    function ActiveAlerts(): (r: set<Alert>)
      reads this
      requires Valid()
      ensures forall x :: x in r ==> x in history && !x.resolved
      ensures forall n :: n in active ==> history[active[n]] in r
      ensures forall x :: x in r ==> x.ruleName in active && history[active[x.ruleName]] == x
      ensures |r| == |active|
    {
      ActiveCount(Model());
      set n | n in active :: history[active[n]]
    }

    /** `get_alert_history`: `alert_history[-limit:]`. */
    function AlertHistory(limit: int): (r: seq<Alert>)
      reads this
      ensures limit > 0 ==> |r| == if limit < |history| then limit else |history|
      ensures limit <= 0 ==> |r| == if -limit < |history| then |history| + limit else 0
      ensures |r| <= |history| && r == history[|history| - |r|..]
    {
      Seqs.SliceFrom(history, -limit)
    }
  }

  // ---------------------------------------------------------------------
  // Time series

  datatype MetricPoint = MetricPoint(timestamp: int, value: int)

  class TimeSeriesData {
    const maxPoints: nat
    var data: map<string, seq<MetricPoint>>

    ghost predicate Valid()
      reads this
    {
      forall m :: m in data ==> |data[m]| <= maxPoints
    }

    constructor (maxPoints: nat)
      ensures this.maxPoints == maxPoints && data == map[] && Valid()
    {
      this.maxPoints := maxPoints;
      data := map[];
    }

    /** The points kept for a metric, oldest first (none for an unseen metric). */
    function Points(metric: string): seq<MetricPoint>
      reads this
    {
      if metric in data then data[metric] else []
    }

    /** `add_point`: appends a point; once `max_points` are kept the oldest is dropped. */
    method AddPoint(metric: string, value: int, now: int)
      requires Valid()
      modifies this
      ensures Valid()
      ensures data == old(data)[metric := Seqs.Bounded(old(Points(metric)) + [MetricPoint(now, value)], maxPoints)]
      ensures maxPoints > 0 ==> LatestValue(metric) == Some(value)
      ensures |Points(metric)| == if |old(Points(metric))| < maxPoints then |old(Points(metric))| + 1 else maxPoints
    {
      data := data[metric := Seqs.Bounded(Points(metric) + [MetricPoint(now, value)], maxPoints)];
    }

    /** `get_recent_points`: `points[-count:]`. */
    function RecentPoints(metric: string, count: int): (r: seq<MetricPoint>)
      reads this
      ensures count > 0 ==> |r| == if count < |Points(metric)| then count else |Points(metric)|
      ensures count <= 0 ==> |r| == if -count < |Points(metric)| then |Points(metric)| + count else 0
      ensures |r| <= |Points(metric)| && r == Points(metric)[|Points(metric)| - |r|..]
    {
      Seqs.SliceFrom(Points(metric), -count)
    }

    /** `get_latest_value`: the value of the last point, None when there is none. */
    function LatestValue(metric: string): (r: Option<int>)
      reads this
      ensures r.Some? <==> Points(metric) != []
      ensures r.Some? ==> r.value == Points(metric)[|Points(metric)| - 1].value
    {
      if Points(metric) == [] then None else Some(Points(metric)[|Points(metric)| - 1].value)
    }

    /** `get_points_in_range`: the kept points with a timestamp in [start, end], in order. */
    method PointsInRange(metric: string, start: int, end: int) returns (r: seq<MetricPoint>)
      ensures r == Seqs.Filter(Points(metric), (p: MetricPoint) => start <= p.timestamp <= end)
    {
      var points := Points(metric);
      var inRange := (p: MetricPoint) => start <= p.timestamp <= end;
      r := [];
      var i := 0;
      while i < |points|
        invariant 0 <= i <= |points|
        invariant r == Seqs.Filter(points[..i], inRange)
      {
        Seqs.TakeNext(points, i);
        Seqs.FilterSnoc(points[..i], points[i], inRange);
        if start <= points[i].timestamp <= end {
          r := r + [points[i]];
        }
        i := i + 1;
      }
      assert points[..i] == points;
    }
  }
}
