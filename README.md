# CloudWatch alarm generators of serverless-plugin-canary-deployments

This project models `lib/CfTemplateGenerators/CloudWatch.js`. That file holds the pure template generators the plugin uses to add canary alarms to a CloudFormation template:

- `PRESETS` and `DEFAULTS`, the two constant alarm-setting tables;
- `resolveAlarmConfig`, which overlays a user's alarm configuration on the preset named by its `type` key, or on the defaults;
- `buildCanaryAlarm`, which emits an `AWS::CloudWatch::Alarm` scoped to a function's alias and executed version. It rejects a configuration without a metric or without a threshold;
- `buildCompositeAlarm`, which emits an `AWS::CloudWatch::CompositeAlarm`. Its rule ORs one `ALARM(${id})` clause per constituent alarm. It rejects a missing or empty id list.

Files:

- `wrappers.dfy`: `Option` and `Result`. `None` stands for an absent or `undefined` key; `Failure` stands for a `throw`.
- `cloudformation.dfy`: the emitted resource bodies. The intrinsics `Ref`, `Fn::Join`, `Fn::GetAtt` and `Fn::Sub` are opaque constructors of `CfnValue`.
- `cloudwatch.dfy`: module `CloudWatch`, the generators and their properties.
  - A configuration object is a record of optional fields.
  - `Get` is the property read `config[key]`, and `Entries` views the record as a JavaScript object.
  - lodash/fp `merge` (it does not mutate, and every value is a scalar) is the key-wise union in which a defined source value wins.
  - The composite rule has a partner: a reader `ParseAlarmRule` that recovers the ids from the rule text.
- `cloudwatch_examples.dfy`: the unit-test cases that agree with the code, stated as lemmas about the model. It also shows what the code does with the inputs of the tests that do not agree.

Where the code and its unit tests disagree, the model follows the code:

- **Preset key.** The code selects a preset with the `type` key (CloudWatch.js:28). The unit tests write `preset: 'errors'`. Under the code that key is never read, so such a configuration resolves to the defaults and `buildCanaryAlarm` throws for the missing metric (`PresetKeyIsNotRead`).
- **Preset values.** The `errors` preset has period 300, 2 evaluation periods and `treatMissingData: 'missing'`. The tests expect 60, 1 and `notBreaching` (`TypeErrorsResolvesToPreset`).
- **Alarm name.** The canary alarm is named `${serviceName}-${stage}-${alarmName}`, with no version suffix. The unit test expects a `-v${<version>.Version}` suffix (CloudWatch.test.js:78). Under the code a new function version keeps the same alarm name (`AlarmNameIgnoresVersion`, `CanaryAlarmNameHasNoVersion`).

Note on preset names: the code (CloudWatch.js:28-31) treats a `type` that names no preset like a missing one. It resolves against the defaults, and the `type` key stays in the resolved object (`UnknownPresetFallsThrough`).

## Model

| member | source | states |
|---|---|---|
| `CloudWatch.Merge` | lib/CfTemplateGenerators/CloudWatch.js:29-31 | for every key, the merged object holds the source's value when it is defined and otherwise the destination's value |
| `CloudWatch.OmitType` | lib/CfTemplateGenerators/CloudWatch.js:29 | `omit(['type'])` leaves `type` undefined and every other key unchanged |
| `CloudWatch.MergeIsObjectUnion` | lib/CfTemplateGenerators/CloudWatch.js:29-31 | seen as objects, the merge is the union of the two key sets, and the source wins on shared keys |
| `CloudWatch.OmitTypeRemovesKey` | lib/CfTemplateGenerators/CloudWatch.js:29 | seen as an object, the result is the input with exactly the `type` key removed |
| `CloudWatch.PresetAndDefaultTables` | lib/CfTemplateGenerators/CloudWatch.js:3-25 | `errors` is the only preset, with metric `Errors`, namespace `AWS/Lambda`, statistic `Sum`, period 300, 2 evaluation periods, 1 datapoint, threshold 1000, `GreaterThanThreshold` and `missing`; the defaults are that preset without `metric` and `threshold`, the only keys they leave undefined besides `type` |
| `CloudWatch.SelectsPreset` | lib/CfTemplateGenerators/CloudWatch.js:28 | `config.type && PRESETS[config.type]` holds exactly when `type` is `errors` |
| `CloudWatch.BaseFor` | lib/CfTemplateGenerators/CloudWatch.js:3-31 | resolution starts from the `errors` preset exactly when `type` is truthy and names a preset, and from `DEFAULTS` otherwise |
| `CloudWatch.ResolveAlarmConfig` | lib/CfTemplateGenerators/CloudWatch.js:27-32 | every key the user defines wins, except a `type` that selected a preset, which is dropped; every key the user leaves out comes from the base; nothing in the result selects a preset again; namespace, statistic, period, evaluation periods, datapoints, operator and missing-data policy are always defined |
| `CloudWatch.ResolveIsObjectMerge` | lib/CfTemplateGenerators/CloudWatch.js:3-31 | seen as objects, the result is `PRESETS.errors` plus the config without `type`, or `DEFAULTS` plus the whole config |
| `CloudWatch.MetricAndThresholdOnlyFromUser` | lib/CfTemplateGenerators/CloudWatch.js:17-31 | without a preset, the resolved `metric` and `threshold` are exactly the user's own, defined or not |
| `CloudWatch.UnknownPresetFallsThrough` | lib/CfTemplateGenerators/CloudWatch.js:28-31 | a `type` that names no preset gives `DEFAULTS` merged with the config, and that `type` is kept |
| `CloudWatch.ResolveIsIdempotent` | lib/CfTemplateGenerators/CloudWatch.js:27-32 | resolving a resolved configuration gives it back unchanged |
| `CloudWatch.ScopedName` | lib/CfTemplateGenerators/CloudWatch.js:48 | the `${serviceName}-${stage}-${alarmName}` template, used for both alarms (also line 93): the name is the service name, `-`, the stage, `-` and the alarm name, at those positions and with that total length |
| `CloudWatch.CanaryDimensions` | lib/CfTemplateGenerators/CloudWatch.js:53-68 | exactly three dimensions, named `FunctionName`, `Resource` and `ExecutedVersion` in that order: a `Ref` to the function, `Fn::Join` with `:` of that same reference and the alias, and `Fn::GetAtt` of the version's `Version` |
| `CloudWatch.SettingsOf` | lib/CfTemplateGenerators/CloudWatch.js:51-75 | reads a metric alarm body back as a configuration: no `type`, and every other key defined |
| `CloudWatch.BuildCanaryAlarm` | lib/CfTemplateGenerators/CloudWatch.js:34-80 | fails with the metric error exactly when the resolved metric is falsy; fails with the threshold error exactly when the metric is truthy and the threshold is undefined; on success, type `AWS::CloudWatch::Alarm`, the resolved settings read back unchanged, the name `service-stage-alarmName`, the description, and the three dimensions `FunctionName`, `Resource` and `ExecutedVersion` in that order |
| `CloudWatch.CanaryAlarmSucceedsIff` | lib/CfTemplateGenerators/CloudWatch.js:27-42 | in terms of the user's config: with the preset, the alarm is built unless `metric` is set to the empty string; without it, the alarm is built exactly when `metric` is a non-empty string and `threshold` is defined |
| `CloudWatch.MissingMetricReportedFirst` | lib/CfTemplateGenerators/CloudWatch.js:37-42 | without a preset, a config missing both metric and threshold gets the metric error |
| `CloudWatch.ZeroThresholdAccepted` | lib/CfTemplateGenerators/CloudWatch.js:40-73 | a threshold of 0 passes the `=== undefined` check and is emitted as 0 |
| `CloudWatch.BuiltAlarmSettingsAreResolved` | lib/CfTemplateGenerators/CloudWatch.js:35-75 | the settings of a built alarm, read back, are a fixed point of resolution |
| `CloudWatch.AlarmNameIgnoresVersion` | lib/CfTemplateGenerators/CloudWatch.js:47-67 | with another version, a failure stays the same failure, and a built alarm is the same resource except that its third dimension becomes `ExecutedVersion` of the new version; in particular the name is reused |
| `CloudWatch.AlarmClause` | lib/CfTemplateGenerators/CloudWatch.js:87 | the clause is `ALARM(${`, the id, then `})`, 10 characters longer than the id |
| `CloudWatch.AlarmClauses` | lib/CfTemplateGenerators/CloudWatch.js:87 | the mapped list has one entry per id, and entry i is `ALARM(${id_i})` |
| `CloudWatch.JoinStrings` | lib/CfTemplateGenerators/CloudWatch.js:87 | `join` of no parts is the empty string; otherwise the result is as long as the parts plus one separator between each two |
| `CloudWatch.AlarmRule` | lib/CfTemplateGenerators/CloudWatch.js:87 | the rule text is empty exactly when there are no ids |
| `CloudWatch.AlarmRuleOfOne` | lib/CfTemplateGenerators/CloudWatch.js:87 | with one id the rule is that id's clause alone, with no `" OR "` |
| `CloudWatch.AlarmRuleOfMore` | lib/CfTemplateGenerators/CloudWatch.js:87 | with more ids the rule is the first id's clause, `" OR "`, then the rule of the remaining ids |
| `CloudWatch.BuildCompositeAlarm` | lib/CfTemplateGenerators/CloudWatch.js:82-103 | fails with the empty-list error exactly when the id list is missing or empty; otherwise type `AWS::CloudWatch::CompositeAlarm`, the name `service-stage-alarmName`, the fixed description, and the rule built from the ids |
| `CloudWatch.ParseFirstClause` | lib/CfTemplateGenerators/CloudWatch.js:87 | an id with no `}` is read back from its `ALARM(${id})` clause, whatever text follows the clause |
| `CloudWatch.ParseOneClause` | lib/CfTemplateGenerators/CloudWatch.js:87 | a single clause of an id without `}` is read back as that id |
| `CloudWatch.ParseClauseThenRest` | lib/CfTemplateGenerators/CloudWatch.js:87 | a clause, `" OR "` and further text are read back as the id followed by what the further text reads back as |
| `CloudWatch.AlarmRuleRoundTrip` | lib/CfTemplateGenerators/CloudWatch.js:87 | for ids without `}`, reading the rule back gives exactly the ids: n clauses in input order, duplicates kept |
| `CloudWatch.CompositeRuleNamesEveryAlarm` | lib/CfTemplateGenerators/CloudWatch.js:82-98 | a composite alarm built from ids without `}` has a rule that reads back as exactly those ids |
| `CloudWatch.AlarmRuleLength` | lib/CfTemplateGenerators/CloudWatch.js:87 | the rule text is as long as n clauses plus n - 1 separators |
| `CloudWatchExamples.CustomConfigUsesDefaults` | lib/CfTemplateGenerators/CloudWatch.test.js:41-53 | `{metric: 'Duration', threshold: 5000}` keeps both and takes statistic and period from the defaults |
| `CloudWatchExamples.CustomMetricAlarm` | lib/CfTemplateGenerators/CloudWatch.test.js:141-160 | a custom Duration/Average config builds an alarm carrying those settings |
| `CloudWatchExamples.MissingMetricIsRejected` | lib/CfTemplateGenerators/CloudWatch.test.js:162-171 | `{threshold: 100}` gets the metric error |
| `CloudWatchExamples.MissingThresholdIsRejected` | lib/CfTemplateGenerators/CloudWatch.test.js:173-182 | `{metric: 'Errors'}` gets the threshold error |
| `CloudWatchExamples.CompositeOfTwoAlarmsName` | lib/CfTemplateGenerators/CloudWatch.test.js:186-202 | two ids give a composite alarm named `my-service-prod-canary-composite` |
| `CloudWatchExamples.CompositeOfTwoAlarmsRule` | lib/CfTemplateGenerators/CloudWatch.test.js:186-206 | two ids give `ALARM(${Hello…}) OR ALARM(${World…})` in that order |
| `CloudWatchExamples.CompositeOfOneAlarm` | lib/CfTemplateGenerators/CloudWatch.test.js:208-224 | one id gives a single clause |
| `CloudWatchExamples.CompositeOfNoAlarms` | lib/CfTemplateGenerators/CloudWatch.test.js:226-237 | an empty list is rejected |
| `CloudWatchExamples.TypeErrorsResolvesToPreset` | lib/CfTemplateGenerators/CloudWatch.js:3-29 | `{type: 'errors'}` resolves to the preset, whose period is 300, with 2 evaluation periods and `missing` |
| `CloudWatchExamples.PresetKeyIsNotRead` | lib/CfTemplateGenerators/CloudWatch.js:27-38 | a config with none of the read keys, which is what `{preset: 'errors'}` is to the code, resolves to `DEFAULTS` and gets the metric error |
| `CloudWatchExamples.PresetWithThresholdOverride` | lib/CfTemplateGenerators/CloudWatch.js:28-73 | `{type: 'errors', threshold: 5}` keeps the metric `Errors` and carries threshold 5 |
| `CloudWatchExamples.CanaryAlarmNameHasNoVersion` | lib/CfTemplateGenerators/CloudWatch.js:47-49 | the test parameters give the name `my-service-prod-myfunction-canary-errors`, with no version suffix |

## Left out

- Synthesis and template merging (`addCanaryDeploymentResources`, `buildCanaryAlarmResources`, logical ids such as `CanaryDeploymentCompositeAlarm`, and appending to a deployment group's `AlarmConfiguration`). They live in `serverless-plugin-canary-deployments.js`, which is not part of this model.
- The plugin test harness: fixture files read from disk, the `Serverless` host and its naming object. These are I/O and a foreign framework.
- Evaluation of the intrinsics `Ref`, `Fn::Join`, `Fn::GetAtt` and `Fn::Sub`, including `${…}` substitution. They stay opaque constructors.
- Keys outside the ten the generators read (for example `preset`). lodash would carry them through the merge unchanged; nothing reads them.
- Values of other JavaScript types. `metric`, `namespace`, `statistic`, `comparisonOperator`, `treatMissingData` and `type` are strings. `period`, `evaluationPeriods`, `datapointsToAlarm` and `threshold` are integers, and they are only copied. Consequently `null`, `0` or `false` as a metric, a `null` threshold (which is not `undefined`), and non-string names interpolated into a template literal are not modelled.
- An id list that is truthy but not an array: the model's list is either missing or a sequence of strings.
- `type` values that name a property inherited from `Object.prototype` (`constructor`, `toString`, …). In JavaScript `PRESETS[type]` is truthy for them too. The model's preset table holds only `errors`.
- Deep merging of nested objects by lodash `merge`: no nested values occur.
- Error-message text. The error is a tag: `MissingMetric`, `MissingThreshold` or `NoAlarmLogicalIds`.
- `CloudWatch.AlarmRuleRoundTrip`: holds only for ids without `}`. With such a character, the rule text no longer determines the ids uniquely. CloudFormation logical ids are alphanumeric.
