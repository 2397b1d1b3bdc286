/** Concrete cases from the generators' unit tests that agree with the code,
    and what the code does with the inputs of the tests that do not. */
module CloudWatchExamples {
  import opened Wrappers
  import opened CloudFormation
  import opened CloudWatch

  /** A configuration object that defines none of the keys the generators read. */
  const NoKeys: AlarmConfig := AlarmConfig(None, None, None, None, None, None, None, None, None, None)

  /** The parameters shared by the canary-alarm tests, with a given configuration. */
  function TestParams(config: AlarmConfig): CanaryAlarmParams {
    CanaryAlarmParams(
      "myfunction-canary-errors", "MyFunctionLambdaFunction", "MyFunctionLambdaFunction",
      "MyFunctionLambdaVersionABC123", "Live", config, "my-service", "prod")
  }

  /** A custom metric without a preset keeps the user's metric and threshold
      and takes the rest from the defaults. */
  lemma CustomConfigUsesDefaults()
    ensures var r := ResolveAlarmConfig(NoKeys.(metric := Some("Duration"), threshold := Some(5000)));
      && r.metric == Some("Duration") && r.threshold == Some(5000)
      && r.statistic == Defaults.statistic && r.period == Defaults.period
  {
  }

  /** A fully custom metric alarm carries the user's metric, threshold and statistic. */
  lemma CustomMetricAlarm()
    ensures var r := BuildCanaryAlarm(TestParams(NoKeys.(
        metric := Some("Duration"), threshold := Some(5000),
        statistic := Some("Average"), comparisonOperator := Some("GreaterThanThreshold"))));
      && r.Success?
      && r.value.properties.metricName == "Duration"
      && r.value.properties.threshold == 5000
      && r.value.properties.statistic == "Average"
  {
  }

  /** Without a preset and without a metric, the metric error is raised. */
  lemma MissingMetricIsRejected()
    ensures BuildCanaryAlarm(TestParams(NoKeys.(threshold := Some(100)))) == Failure(MissingMetric)
  {
  }

  /** Without a preset and without a threshold, the threshold error is raised. */
  lemma MissingThresholdIsRejected()
    ensures BuildCanaryAlarm(TestParams(NoKeys.(metric := Some("Errors")))) == Failure(MissingThreshold)
  {
  }

  const TwoAlarmsParams := CompositeAlarmParams(
    "canary-composite", Some(["HelloCanaryErrorsAlarm", "WorldCanaryErrorsAlarm"]), "my-service", "prod")

  /** Two ids give a composite alarm named after the service and stage. */
  lemma CompositeOfTwoAlarmsName()
    ensures var r := BuildCompositeAlarm(TwoAlarmsParams);
      && r.Success?
      && r.value.resourceType == "AWS::CloudWatch::CompositeAlarm"
      && r.value.properties.alarmName == Sub("my-service" + "-" + "prod" + "-" + "canary-composite")
  {
  }

  /** Two ids give two clauses joined by one separator, in input order. */
  lemma CompositeOfTwoAlarmsRule()
    ensures var r := BuildCompositeAlarm(TwoAlarmsParams);
      && r.Success?
      && r.value.properties.alarmRule
         == Sub("ALARM(${" + "HelloCanaryErrorsAlarm" + "})" + " OR " + "ALARM(${" + "WorldCanaryErrorsAlarm" + "})")
  {
    var ids := TwoAlarmsParams.alarmLogicalIds.value;
    AlarmRuleOfMore(ids);
    assert ids[1..] == ["WorldCanaryErrorsAlarm"];
    AlarmRuleOfOne("WorldCanaryErrorsAlarm");
  }

  /** One id gives one clause and no separator. */
  lemma CompositeOfOneAlarm()
    ensures var r := BuildCompositeAlarm(CompositeAlarmParams(
        "canary-composite", Some(["HelloCanaryErrorsAlarm"]), "my-service", "prod"));
      r.Success? && r.value.properties.alarmRule == Sub("ALARM(${" + "HelloCanaryErrorsAlarm" + "})")
  {
    AlarmRuleOfOne("HelloCanaryErrorsAlarm");
  }

  /** An empty id list is rejected. */
  lemma CompositeOfNoAlarms()
    ensures BuildCompositeAlarm(CompositeAlarmParams("canary-composite", Some([]), "my-service", "prod"))
      == Failure(NoAlarmLogicalIds)
  {
  }

  /** The preset is selected by the `type` key and has a 300-second period,
      2 evaluation periods and `missing` as its missing-data policy. */
  lemma TypeErrorsResolvesToPreset()
    ensures ResolveAlarmConfig(NoKeys.(presetType := Some("errors"))) == ErrorsPreset
    ensures ErrorsPreset.period == Some(300) && ErrorsPreset.evaluationPeriods == Some(2)
    ensures ErrorsPreset.treatMissingData == Some("missing")
  {
  }

  /** A `preset` key is not read: such a configuration resolves like one with
      no keys, to the defaults, and the canary alarm is rejected for its metric. */
  lemma PresetKeyIsNotRead()
    ensures ResolveAlarmConfig(NoKeys) == Defaults
    ensures BuildCanaryAlarm(TestParams(NoKeys)) == Failure(MissingMetric)
  {
  }

  /** With the `errors` preset and a threshold override, the alarm keeps the
      preset's metric and carries the overriding threshold. */
  lemma PresetWithThresholdOverride()
    ensures var r := BuildCanaryAlarm(TestParams(NoKeys.(presetType := Some("errors"), threshold := Some(5))));
      && r.Success?
      && r.value.properties.threshold == 5
      && r.value.properties.metricName == "Errors"
  {
  }

  /** The canary alarm's name has no version suffix. */
  lemma CanaryAlarmNameHasNoVersion()
    ensures var r := BuildCanaryAlarm(TestParams(NoKeys.(presetType := Some("errors"))));
      r.Success? && r.value.properties.alarmName == Sub("my-service" + "-" + "prod" + "-" + "myfunction-canary-errors")
  {
  }
}
