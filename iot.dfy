/** Sensor readings of backend/src/services/iotService.ts: recording one
    checks it against the housing's active thresholds, opening one alert per
    threshold it crosses, and against the housing's automation rules. */
module Iot {
  import opened Common

  /** A sensor reading; its id in the readings table is its position. */
  datatype SensorReading = SensorReading(deviceId: string, housingId: string, sensorType: string, value: real, unit: string)

  /** A row of iot_thresholds; either bound may be NULL. */
  datatype Threshold = Threshold(
    housingId: string, sensorType: string, isActive: bool, operator: string,
    minValue: Option<real>, maxValue: Option<real>)

  /** The JSON condition of an automation rule; its sensor type may be missing. */
  datatype Condition = Condition(sensorType: Option<string>, operator: string, thresholdValue: real)

  /** A row of iot_automation_rules. */
  datatype Rule = Rule(housingId: string, isActive: bool, condition: Condition, action: string)

  datatype Severity = Low | Medium | High | Critical

  /** A row of iot_alerts; its id is its position. */
  datatype Alert = Alert(
    deviceId: string, housingId: string, alertType: string, severity: Severity,
    sensorDataId: nat, status: string)

  /** The in-app notification each new alert raises, linked to the alert. */
  datatype Notification = Notification(priority: Severity, alertId: nat)

  function Rank(s: Severity): nat {
    match s
    case Low => 0
    case Medium => 1
    case High => 2
    case Critical => 3
  }

  // ------------------------------------------------------------- conditions

  /** evaluateCondition: the five comparison operators; any other is false. */
  function EvaluateCondition(value: real, operator: string, threshold: real): (r: bool)
    ensures operator == ">" ==> (r <==> value > threshold)
    ensures operator == "<" ==> (r <==> value < threshold)
    ensures operator == ">=" ==> (r <==> value >= threshold)
    ensures operator == "<=" ==> (r <==> value <= threshold)
    ensures operator == "==" ==> (r <==> value == threshold)
    ensures r ==> operator in {">", "<", ">=", "<=", "=="}
  {
    match operator
    case ">" => value > threshold
    case "<" => value < threshold
    case ">=" => value >= threshold
    case "<=" => value <= threshold
    case "==" => value == threshold
    case _ => false
  }

  /** `>=` and `<=` together hold exactly for `==`, and `>` and `<` never hold together. */
  lemma ComparisonsAgree(value: real, threshold: real)
    ensures EvaluateCondition(value, ">=", threshold) && EvaluateCondition(value, "<=", threshold)
        <==> EvaluateCondition(value, "==", threshold)
    ensures !(EvaluateCondition(value, ">", threshold) && EvaluateCondition(value, "<", threshold))
  {
  }

  // ------------------------------------------------------------- thresholds

  /** A NULL bound compared with a number counts as 0. */
  function Num(x: Option<real>): real { x.GetOr(0.0) }

  /** JavaScript `a || b` on nullable numbers: `a` unless it is NULL or 0. */
  function OrElse(a: Option<real>, b: Option<real>): (r: Option<real>)
    ensures a.Some? && a.value != 0.0 ==> r == a
    ensures (a.None? || a.value == 0.0) ==> r == b
  {
    if a.Some? && a.value != 0.0 then a else b
  }

  /** The switch deciding whether a reading crosses a threshold; an unknown
      operator never alerts. */
  function ShouldAlert(t: Threshold, value: real): (r: bool)
    ensures t.operator == ">" ==> (r <==> value > Num(t.maxValue))
    ensures t.operator == "<" ==> (r <==> value < Num(t.minValue))
    ensures t.operator == "between" ==> (r <==> value < Num(t.minValue) || value > Num(t.maxValue))
    ensures r ==> t.operator in {">", "<", "between"}
  {
    match t.operator
    case ">" => value > Num(t.maxValue)
    case "<" => value < Num(t.minValue)
    case "between" => value < Num(t.minValue) || value > Num(t.maxValue)
    case _ => false
  }

  /** A `between` threshold alerts exactly when the same bounds would alert
      under `>` or under `<`. */
  lemma BetweenIsEitherSide(t: Threshold, value: real)
    requires t.operator == "between"
    ensures ShouldAlert(t, value) <==> ShouldAlert(t.(operator := ">"), value) || ShouldAlert(t.(operator := "<"), value)
  {
  }

  function Abs(x: real): real { if x < 0.0 then -x else x }

  /** `|value - (max || min)|`: the distance to the maximum, or to the
      minimum when the maximum is NULL or 0. */
  function Deviation(t: Threshold, value: real): (d: real)
    ensures d >= 0.0
  {
    Abs(value - Num(OrElse(t.maxValue, t.minValue)))
  }

  /** `(max - min) || 1`. */
  function Range(t: Threshold): (r: real)
    ensures r != 0.0
    ensures Num(t.maxValue) != Num(t.minValue) ==> r == Num(t.maxValue) - Num(t.minValue)
  {
    if Num(t.maxValue) - Num(t.minValue) != 0.0 then Num(t.maxValue) - Num(t.minValue) else 1.0
  }

  /** The severity bands: above half the range critical, above 30% high,
      above 10% medium, otherwise low. */
  function Band(deviation: real, range: real): (s: Severity)
    ensures s == Critical <==> deviation > range * 0.5
    ensures s == Low <==> deviation <= range * 0.5 && deviation <= range * 0.3 && deviation <= range * 0.1
  {
    if deviation > range * 0.5 then Critical
    else if deviation > range * 0.3 then High
    else if deviation > range * 0.1 then Medium
    else Low
  }

  /** Against the same threshold, a larger deviation is never less severe. */
  lemma BandMonotone(d1: real, d2: real, range: real)
    requires d1 <= d2
    ensures Rank(Band(d1, range)) <= Rank(Band(d2, range))
  {
  }

  function SeverityOf(t: Threshold, value: real): Severity {
    Band(Deviation(t, value), Range(t))
  }

  /** The deviation is measured from the maximum whatever side was crossed:
      with bounds 10 and 20, a reading of 9 is one below the minimum yet is
      critical, while a reading of 21 is one above the maximum and is low. */
  lemma LowReadingMeasuredFromMaximum()
    ensures var t := Threshold("h", "temperature", true, "between", Some(10.0), Some(20.0));
      && ShouldAlert(t, 9.0) && SeverityOf(t, 9.0) == Critical
      && ShouldAlert(t, 21.0) && SeverityOf(t, 21.0) == Low
  {
    var t := Threshold("h", "temperature", true, "between", Some(10.0), Some(20.0));
    assert Deviation(t, 9.0) == 11.0;
    assert Deviation(t, 21.0) == 1.0;
  }

  /** The thresholds the query selects for a reading. */
  predicate Applies(t: Threshold, d: SensorReading) {
    t.housingId == d.housingId && t.sensorType == d.sensorType && t.isActive
  }

  predicate Triggers(t: Threshold, d: SensorReading) {
    Applies(t, d) && ShouldAlert(t, d.value)
  }

  /** The thresholds that open an alert, in table order. */
  function Triggering(ts: seq<Threshold>, d: SensorReading): (r: seq<Threshold>)
    ensures |r| <= |ts|
    ensures forall t :: t in r <==> t in ts && Triggers(t, d)
    decreases |ts|
  {
    if ts == [] then []
    else
      var last := ts[|ts| - 1];
      Triggering(ts[..|ts| - 1], d) + (if Triggers(last, d) then [last] else [])
  }

  /** The alert a crossed threshold opens. */
  function AlertFor(t: Threshold, d: SensorReading, sensorDataId: nat): Alert {
    Alert(d.deviceId, d.housingId, "threshold_exceeded", SeverityOf(t, d.value), sensorDataId, "open")
  }

  /** One alert per crossed threshold, each linked to the reading. */
  function ThresholdAlerts(ts: seq<Threshold>, d: SensorReading, sensorDataId: nat): (r: seq<Alert>)
    ensures |r| == |Triggering(ts, d)|
    ensures forall k :: 0 <= k < |r| ==> r[k] == AlertFor(Triggering(ts, d)[k], d, sensorDataId)
  {
    var tr := Triggering(ts, d);
    seq(|tr|, k requires 0 <= k < |tr| => AlertFor(tr[k], d, sensorDataId))
  }

  /** Every alert a reading opens is an open threshold alert on its own
      housing and device, linked to the reading. */
  lemma ThresholdAlertsAreOpen(ts: seq<Threshold>, d: SensorReading, sensorDataId: nat)
    ensures forall a :: a in ThresholdAlerts(ts, d, sensorDataId) ==>
      && a.status == "open" && a.alertType == "threshold_exceeded" && a.sensorDataId == sensorDataId
      && a.housingId == d.housingId && a.deviceId == d.deviceId
  {
  }

  /** Inactive thresholds, and those of other housings or sensor types, open nothing. */
  lemma {:induction false} OnlyApplicableThresholdsAlert(ts: seq<Threshold>, d: SensorReading)
    requires forall i :: 0 <= i < |ts| ==> !Applies(ts[i], d)
    ensures Triggering(ts, d) == []
    decreases |ts|
  {
    if ts != [] {
      OnlyApplicableThresholdsAlert(ts[..|ts| - 1], d);
    }
  }

  /** Taking one more threshold into account adds its alert exactly when
      the reading triggers it. */
  lemma ThresholdAlertsStep(ts: seq<Threshold>, d: SensorReading, sensorDataId: nat, i: nat)
    requires i < |ts|
    ensures Triggers(ts[i], d) ==>
      ThresholdAlerts(ts[..i + 1], d, sensorDataId) == ThresholdAlerts(ts[..i], d, sensorDataId) + [AlertFor(ts[i], d, sensorDataId)]
    ensures !Triggers(ts[i], d) ==>
      ThresholdAlerts(ts[..i + 1], d, sensorDataId) == ThresholdAlerts(ts[..i], d, sensorDataId)
  {
    var pre := ts[..i + 1];
    assert pre[..|pre| - 1] == ts[..i];
  }

  /** One more alert adds one notification, about the next alert id. */
  lemma NoticesStep(base: nat, alerts: seq<Alert>, a: Alert)
    ensures Notices(base, alerts + [a]) == Notices(base, alerts) + [Notification(a.severity, base + |alerts|)]
  {
  }

  /** The notification raised for each of the alerts numbered from `base`. */
  function Notices(base: nat, alerts: seq<Alert>): (r: seq<Notification>)
    ensures |r| == |alerts|
    ensures forall k :: 0 <= k < |r| ==> r[k] == Notification(alerts[k].severity, base + k)
  {
    seq(|alerts|, k requires 0 <= k < |alerts| => Notification(alerts[k].severity, base + k))
  }

  // ---------------------------------------------------------- automation

  /** A rule fires when its condition names the reading's sensor type and holds. */
  predicate Fires(r: Rule, d: SensorReading) {
    && r.housingId == d.housingId && r.isActive
    && r.condition.sensorType == Some(d.sensorType)
    && EvaluateCondition(d.value, r.condition.operator, r.condition.thresholdValue)
  }

  /** The rules whose action runs for a reading, in table order. */
  function FiredRules(rules: seq<Rule>, d: SensorReading): (r: seq<Rule>)
    ensures |r| <= |rules|
    ensures forall x :: x in r <==> x in rules && Fires(x, d)
    decreases |rules|
  {
    if rules == [] then []
    else
      var last := rules[|rules| - 1];
      FiredRules(rules[..|rules| - 1], d) + (if Fires(last, d) then [last] else [])
  }

  /** A rule without a sensor type never fires. */
  lemma UntypedRuleNeverFires(r: Rule, d: SensorReading)
    requires r.condition.sensorType.None?
    ensures FiredRules([r], d) == []
  {
    assert [r][..0] == [];
  }

  // ---------------------------------------------------------------- store

  /** The IoT tables, updated in place. */
  class IotStore {
    var readings: seq<SensorReading>
    var thresholds: seq<Threshold>
    var rules: seq<Rule>
    var alerts: seq<Alert>
    var notifications: seq<Notification>

    constructor (thresholds: seq<Threshold>, rules: seq<Rule>)
      ensures this.thresholds == thresholds && this.rules == rules
      ensures readings == [] && alerts == [] && notifications == []
    {
      this.thresholds, this.rules := thresholds, rules;
      readings, alerts, notifications := [], [], [];
    }

    /** createAlert: an open alert, then its notification. */
    method CreateAlert(a: Alert) returns (id: nat)
      modifies this
      ensures id == |old(alerts)|
      ensures alerts == old(alerts) + [a.(status := "open")]
      ensures notifications == old(notifications) + [Notification(a.severity, id)]
      ensures readings == old(readings) && thresholds == old(thresholds) && rules == old(rules)
    {
      id := |alerts|;
      alerts := alerts + [a.(status := "open")];
      notifications := notifications + [Notification(a.severity, id)];
    }

    /** checkThresholds: one alert, and one notification, per threshold the
        reading crosses. */
    method CheckThresholds(d: SensorReading, sensorDataId: nat)
      modifies this
      ensures alerts == old(alerts) + ThresholdAlerts(thresholds, d, sensorDataId)
      ensures notifications == old(notifications) + Notices(|old(alerts)|, ThresholdAlerts(thresholds, d, sensorDataId))
      ensures readings == old(readings) && thresholds == old(thresholds) && rules == old(rules)
    {
      var ts := thresholds;
      ghost var base := |alerts|;
      for i := 0 to |ts|
        invariant thresholds == ts && readings == old(readings) && rules == old(rules)
        invariant alerts == old(alerts) + ThresholdAlerts(ts[..i], d, sensorDataId)
        invariant notifications == old(notifications) + Notices(base, ThresholdAlerts(ts[..i], d, sensorDataId))
      {
        var t := ts[i];
        ghost var before := ThresholdAlerts(ts[..i], d, sensorDataId);
        ThresholdAlertsStep(ts, d, sensorDataId, i);
        if Applies(t, d) && ShouldAlert(t, d.value) {
          var severity := SeverityOf(t, d.value);
          NoticesStep(base, before, AlertFor(t, d, sensorDataId));
          var id := CreateAlert(Alert(d.deviceId, d.housingId, "threshold_exceeded", severity, sensorDataId, "open"));
        }
      }
      assert ts[..|ts|] == ts;
    }

    /** checkAutomationRules: the rules whose action runs; the action itself
        only writes to the log. */
    method CheckAutomationRules(d: SensorReading) returns (fired: seq<Rule>)
      ensures fired == FiredRules(rules, d)
    {
      fired := [];
      for i := 0 to |rules|
        invariant fired == FiredRules(rules[..i], d)
      {
        assert rules[..i + 1][..i] == rules[..i];
        var r := rules[i];
        if r.housingId == d.housingId && r.isActive
           && r.condition.sensorType == Some(d.sensorType)
           && EvaluateCondition(d.value, r.condition.operator, r.condition.thresholdValue)
        {
          fired := fired + [r];
        }
      }
      assert rules[..|rules|] == rules;
    }

    /** recordSensorData: the reading is stored, checked against the
        thresholds and then against the automation rules. */
    method RecordSensorData(d: SensorReading) returns (id: nat, fired: seq<Rule>)
      modifies this
      ensures id == |old(readings)| && readings == old(readings) + [d]
      ensures alerts == old(alerts) + ThresholdAlerts(thresholds, d, id)
      ensures notifications == old(notifications) + Notices(|old(alerts)|, ThresholdAlerts(thresholds, d, id))
      ensures thresholds == old(thresholds) && rules == old(rules)
      ensures fired == FiredRules(rules, d)
    {
      id := |readings|;
      readings := readings + [d];
      CheckThresholds(d, id);
      fired := CheckAutomationRules(d);
    }
  }

  /** A reading above a `>` threshold opens one open alert, linked to it. */
  method OverheatScenario() returns (store: IotStore)
    ensures |store.alerts| == 1 && store.alerts[0].status == "open" && store.alerts[0].sensorDataId == 0
    ensures |store.notifications| == 1 && store.notifications[0].alertId == 0
  {
    var t := Threshold("h1", "temperature", true, ">", None, Some(30.0));
    store := new IotStore([t], []);
    var d := SensorReading("dev", "h1", "temperature", 35.0, "C");
    assert Triggering([t], d) == [t] by {
      assert [t][..0] == [];
    }
    var id, fired := store.RecordSensorData(d);
  }
}
