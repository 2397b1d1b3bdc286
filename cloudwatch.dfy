/** The CloudWatch template generators of the canary-deployments plugin:
    resolving a user's alarm configuration against the presets and the
    defaults, building the per-function canary metric alarm, and building
    the composite alarm that ORs all canary alarms together. */
module CloudWatch {
  import opened Wrappers
  import opened CloudFormation

  // ---------------------------------------------------------------------
  // Alarm configuration objects
  // ---------------------------------------------------------------------

  /** An alarm configuration object, as the user writes it in `canaryAlarms`
      and as resolution returns it. Every key is optional; `None` stands for
      a key that is absent or `undefined`. `presetType` is the `type` key. */
  datatype AlarmConfig = AlarmConfig(
    presetType: Option<string>,
    metric: Option<string>,
    namespace: Option<string>,
    statistic: Option<string>,
    period: Option<int>,
    evaluationPeriods: Option<int>,
    datapointsToAlarm: Option<int>,
    threshold: Option<int>,
    comparisonOperator: Option<string>,
    treatMissingData: Option<string>)

  /** The keys of an alarm configuration object. */
  datatype Key =
    | TypeKey | MetricKey | NamespaceKey | StatisticKey | PeriodKey
    | EvaluationPeriodsKey | DatapointsToAlarmKey | ThresholdKey
    | ComparisonOperatorKey | TreatMissingDataKey

  const AllKeys: set<Key> := {
    TypeKey, MetricKey, NamespaceKey, StatisticKey, PeriodKey,
    EvaluationPeriodsKey, DatapointsToAlarmKey, ThresholdKey,
    ComparisonOperatorKey, TreatMissingDataKey
  }

  /** A scalar property value. */
  datatype Value = Text(text: string) | Number(number: int)

  function TextOf(o: Option<string>): Option<Value> {
    if o.Some? then Some(Text(o.value)) else None
  }

  function NumberOf(o: Option<int>): Option<Value> {
    if o.Some? then Some(Number(o.value)) else None
  }

  /** The property read `config[key]`. */
  function Get(c: AlarmConfig, k: Key): Option<Value> {
    match k
    case TypeKey => TextOf(c.presetType)
    case MetricKey => TextOf(c.metric)
    case NamespaceKey => TextOf(c.namespace)
    case StatisticKey => TextOf(c.statistic)
    case PeriodKey => NumberOf(c.period)
    case EvaluationPeriodsKey => NumberOf(c.evaluationPeriods)
    case DatapointsToAlarmKey => NumberOf(c.datapointsToAlarm)
    case ThresholdKey => NumberOf(c.threshold)
    case ComparisonOperatorKey => TextOf(c.comparisonOperator)
    case TreatMissingDataKey => TextOf(c.treatMissingData)
  }

  /** The configuration seen as a JavaScript object: its defined keys and their values. */
  function Entries(c: AlarmConfig): map<Key, Value> {
    map k | k in AllKeys && Get(c, k).Some? :: Get(c, k).value
  }

  /** JavaScript truthiness of an optional string: defined and not empty. */
  predicate Truthy(o: Option<string>) {
    o.Some? && o.value != ""
  }

  /** One key of a merge: the source's value wins unless it is undefined. */
  function Override<T>(source: Option<T>, destination: Option<T>): Option<T> {
    if source.Some? then source else destination
  }

  /** lodash/fp `merge(destination, source)` on flat configuration objects.
      It does not mutate its arguments and all values are scalars, so every
      key is decided on its own. */
  function Merge(destination: AlarmConfig, source: AlarmConfig): (r: AlarmConfig)
    ensures forall k :: Get(r, k) == Override(Get(source, k), Get(destination, k))
  {
    AlarmConfig(
      Override(source.presetType, destination.presetType),
      Override(source.metric, destination.metric),
      Override(source.namespace, destination.namespace),
      Override(source.statistic, destination.statistic),
      Override(source.period, destination.period),
      Override(source.evaluationPeriods, destination.evaluationPeriods),
      Override(source.datapointsToAlarm, destination.datapointsToAlarm),
      Override(source.threshold, destination.threshold),
      Override(source.comparisonOperator, destination.comparisonOperator),
      Override(source.treatMissingData, destination.treatMissingData))
  }

  /** lodash/fp `omit(['type'], config)`. */
  function OmitType(c: AlarmConfig): (r: AlarmConfig)
    ensures Get(r, TypeKey) == None
    ensures forall k :: k != TypeKey ==> Get(r, k) == Get(c, k)
  {
    c.(presetType := None)
  }

  /** As objects, a merge is the key-wise union in which the source wins. */
  lemma MergeIsObjectUnion(destination: AlarmConfig, source: AlarmConfig)
    ensures Entries(Merge(destination, source)) == Entries(destination) + Entries(source)
  {
  }

  /** As objects, omitting `type` removes exactly that key. */
  lemma OmitTypeRemovesKey(c: AlarmConfig)
    ensures Entries(OmitType(c)) == Entries(c) - {TypeKey}
  {
  }

  // ---------------------------------------------------------------------
  // PRESETS and DEFAULTS
  // ---------------------------------------------------------------------

  /** The `errors` preset. */
  const ErrorsPreset: AlarmConfig := AlarmConfig(
    None, Some("Errors"), Some("AWS/Lambda"), Some("Sum"), Some(300), Some(2), Some(1),
    Some(1000), Some("GreaterThanThreshold"), Some("missing"))

  /** The preset table; `errors` is its only entry. */
  const Presets: map<string, AlarmConfig> := map["errors" := ErrorsPreset]

  /** The base used when no preset is selected; it defines neither `metric` nor `threshold`. */
  const Defaults: AlarmConfig := AlarmConfig(
    None, None, Some("AWS/Lambda"), Some("Sum"), Some(300), Some(2), Some(1),
    None, Some("GreaterThanThreshold"), Some("missing"))

  /** The two tables: `errors` is the only preset, and the defaults are that
      preset without `metric` and `threshold`, the only keys they leave undefined. */
  lemma PresetAndDefaultTables()
    ensures Presets.Keys == {"errors"} && Presets["errors"] == ErrorsPreset
    ensures ErrorsPreset == AlarmConfig(
      None, Some("Errors"), Some("AWS/Lambda"), Some("Sum"), Some(300), Some(2), Some(1),
      Some(1000), Some("GreaterThanThreshold"), Some("missing"))
    ensures Defaults == ErrorsPreset.(metric := None, threshold := None)
    ensures forall k :: Get(Defaults, k).None? <==> k == TypeKey || k == MetricKey || k == ThresholdKey
  {
  }

  /** `config.type && PRESETS[config.type]`: the `type` key is truthy and names a preset. */
  predicate SelectsPreset(c: AlarmConfig): (b: bool)
    ensures b <==> c.presetType == Some("errors")
  {
    Truthy(c.presetType) && c.presetType.value in Presets
  }

  /** The object that resolution starts from. */
  function BaseFor(c: AlarmConfig): (r: AlarmConfig)
    ensures SelectsPreset(c) ==> r == ErrorsPreset
    ensures !SelectsPreset(c) ==> r == Defaults
  {
    if SelectsPreset(c) then Presets[c.presetType.value] else Defaults
  }

  // ---------------------------------------------------------------------
  // resolveAlarmConfig
  // ---------------------------------------------------------------------

  /** Overlays the user's configuration onto the selected preset (without its
      `type` key) or onto the defaults (keeping `type`). An unknown preset name
      is not an error: it falls through to the defaults. */
  function ResolveAlarmConfig(config: AlarmConfig): (r: AlarmConfig)
    // every key the user defines wins, except a `type` that selected a preset
    ensures forall k :: Get(config, k).Some? && !(k == TypeKey && SelectsPreset(config)) ==>
      Get(r, k) == Get(config, k)
    // every key the user leaves out comes from the base
    ensures forall k :: Get(config, k).None? ==> Get(r, k) == Get(BaseFor(config), k)
    // the `type` that selected a preset is dropped
    ensures SelectsPreset(config) ==> r.presetType.None?
    // nothing left in the result selects a preset again
    ensures !SelectsPreset(r)
    // namespace, statistic, periods, operator and missing-data policy are always defined
    ensures r.namespace.Some? && r.statistic.Some? && r.period.Some?
    ensures r.evaluationPeriods.Some? && r.datapointsToAlarm.Some?
    ensures r.comparisonOperator.Some? && r.treatMissingData.Some?
  {
    if SelectsPreset(config) then
      Merge(Presets[config.presetType.value], OmitType(config))
    else
      Merge(Defaults, config)
  }

  /** Resolution is exactly the object-level merge the source writes down. */
  lemma ResolveIsObjectMerge(config: AlarmConfig)
    ensures SelectsPreset(config) ==>
      Entries(ResolveAlarmConfig(config)) == Entries(ErrorsPreset) + (Entries(config) - {TypeKey})
    ensures !SelectsPreset(config) ==>
      Entries(ResolveAlarmConfig(config)) == Entries(Defaults) + Entries(config)
  {
    if SelectsPreset(config) {
      MergeIsObjectUnion(ErrorsPreset, OmitType(config));
      OmitTypeRemovesKey(config);
    } else {
      MergeIsObjectUnion(Defaults, config);
    }
  }

  /** Without a preset, `metric` and `threshold` are defined only if the user defines them. */
  lemma MetricAndThresholdOnlyFromUser(config: AlarmConfig)
    requires !SelectsPreset(config)
    ensures ResolveAlarmConfig(config).metric == config.metric
    ensures ResolveAlarmConfig(config).threshold == config.threshold
  {
  }

  /** A `type` that is empty or not a preset name falls through to the
      defaults silently and stays in the result. */
  lemma UnknownPresetFallsThrough(config: AlarmConfig, name: string)
    requires config.presetType == Some(name) && name !in Presets
    ensures ResolveAlarmConfig(config) == Merge(Defaults, config)
    ensures ResolveAlarmConfig(config).presetType == Some(name)
  {
  }

  /** Resolving a resolved configuration changes nothing. */
  lemma ResolveIsIdempotent(config: AlarmConfig)
    ensures ResolveAlarmConfig(ResolveAlarmConfig(config)) == ResolveAlarmConfig(config)
  {
  }

  // ---------------------------------------------------------------------
  // buildCanaryAlarm
  // ---------------------------------------------------------------------

  /** Why a generator throws. */
  datatype AlarmError = MissingMetric | MissingThreshold | NoAlarmLogicalIds

  /** The destructured argument of `buildCanaryAlarm`. */
  datatype CanaryAlarmParams = CanaryAlarmParams(
    alarmName: string,
    functionName: string,
    functionRef: string,
    versionName: string,
    aliasName: string,
    alarmConfig: AlarmConfig,
    serviceName: string,
    stage: string)

  const MetricAlarmType := "AWS::CloudWatch::Alarm"
  const CompositeAlarmType := "AWS::CloudWatch::CompositeAlarm"
  const CompositeAlarmDescription := "Stack composite alarm for canary deployments"

  /** `${serviceName}-${stage}-${alarmName}` */
  function ScopedName(serviceName: string, stage: string, alarmName: string): (r: string)
    ensures |r| == |serviceName| + |stage| + |alarmName| + 2
    ensures serviceName <= r && r[|serviceName|] == '-'
    ensures r[|serviceName| + 1..|serviceName| + 1 + |stage|] == stage
    ensures r[|r| - |alarmName| - 1] == '-' && r[|r| - |alarmName|..] == alarmName
  {
    serviceName + "-" + stage + "-" + alarmName
  }

  /** The three dimensions that scope the alarm to the canary alias and version. */
  function CanaryDimensions(functionRef: string, aliasName: string, versionName: string): (r: seq<Dimension>)
    ensures |r| == 3
    ensures r[0].name == "FunctionName" && r[1].name == "Resource" && r[2].name == "ExecutedVersion"
    // the function itself, the same function qualified by the alias, and the version's number
    ensures r[0].value == Ref(functionRef)
    ensures r[1].value.Join? && r[1].value.separator == ":" && r[1].value.parts == [r[0].value, Str(aliasName)]
    ensures r[2].value == GetAtt(versionName, "Version")
  {
    [ Dimension("FunctionName", Ref(functionRef)),
      Dimension("Resource", Join(":", [Ref(functionRef), Str(aliasName)])),
      Dimension("ExecutedVersion", GetAtt(versionName, "Version")) ]
  }

  /** The alarm settings that a metric alarm body carries, read back as a
      configuration object without a `type`. */
  function SettingsOf(p: Properties): (c: AlarmConfig)
    requires p.MetricAlarmProperties?
    ensures c.presetType.None? && Truthy(c.metric) == (p.metricName != "")
    ensures forall k :: k in AllKeys - {TypeKey} ==> Get(c, k).Some?
  {
    AlarmConfig(
      None, Some(p.metricName), Some(p.namespace), Some(p.statistic), Some(p.period),
      Some(p.evaluationPeriods), Some(p.datapointsToAlarm), Some(p.threshold),
      Some(p.comparisonOperator), Some(p.treatMissingData))
  }

  /** Resolves the configuration, rejects a falsy `metric` and then an
      undefined `threshold`, and otherwise emits the metric alarm. */
  function BuildCanaryAlarm(params: CanaryAlarmParams): (r: Result<Resource, AlarmError>)
    ensures var c := ResolveAlarmConfig(params.alarmConfig);
      && (r == Failure(MissingMetric) <==> !Truthy(c.metric))
      && (r == Failure(MissingThreshold) <==> Truthy(c.metric) && c.threshold.None?)
      && (r.Failure? ==> r.error != NoAlarmLogicalIds)
    ensures r.Success? ==>
      && r.value.resourceType == MetricAlarmType
      && r.value.properties.MetricAlarmProperties?
      // every resolved setting is carried over unchanged
      && SettingsOf(r.value.properties) == OmitType(ResolveAlarmConfig(params.alarmConfig))
      && r.value.properties.alarmName == Sub(ScopedName(params.serviceName, params.stage, params.alarmName))
      && r.value.properties.alarmDescription == "Canary alarm for " + params.functionName + " function"
      && r.value.properties.dimensions == CanaryDimensions(params.functionRef, params.aliasName, params.versionName)
  {
    var resolved := ResolveAlarmConfig(params.alarmConfig);
    if !Truthy(resolved.metric) then
      Failure(MissingMetric)
    else if resolved.threshold.None? then
      Failure(MissingThreshold)
    else
      Success(Resource(
        MetricAlarmType,
        MetricAlarmProperties(
          Sub(ScopedName(params.serviceName, params.stage, params.alarmName)),
          "Canary alarm for " + params.functionName + " function",
          resolved.metric.value,
          resolved.namespace.value,
          CanaryDimensions(params.functionRef, params.aliasName, params.versionName),
          resolved.statistic.value,
          resolved.period.value,
          resolved.evaluationPeriods.value,
          resolved.datapointsToAlarm.value,
          resolved.threshold.value,
          resolved.comparisonOperator.value,
          resolved.treatMissingData.value)))
  }

  /** When the canary alarm is built, in terms of the user's own configuration:
      with the preset it fails only if the user blanks out `metric`; without it
      the user must give a non-empty `metric` and a `threshold`. */
  lemma CanaryAlarmSucceedsIff(params: CanaryAlarmParams)
    ensures var c := params.alarmConfig;
      BuildCanaryAlarm(params).Success? <==>
        if SelectsPreset(c) then c.metric != Some("") else Truthy(c.metric) && c.threshold.Some?
  {
  }

  /** The metric check runs first: a configuration missing both reports the metric. */
  lemma MissingMetricReportedFirst(params: CanaryAlarmParams)
    requires !SelectsPreset(params.alarmConfig)
    requires !Truthy(params.alarmConfig.metric) && params.alarmConfig.threshold.None?
    ensures BuildCanaryAlarm(params) == Failure(MissingMetric)
  {
  }

  /** A threshold of 0 is defined, so it is accepted and copied. */
  lemma ZeroThresholdAccepted(params: CanaryAlarmParams)
    requires Truthy(params.alarmConfig.metric) && params.alarmConfig.threshold == Some(0)
    ensures BuildCanaryAlarm(params).Success?
    ensures BuildCanaryAlarm(params).value.properties.threshold == 0
  {
  }

  /** The settings of a built alarm, read back, resolve to themselves. */
  lemma BuiltAlarmSettingsAreResolved(params: CanaryAlarmParams)
    requires BuildCanaryAlarm(params).Success?
    ensures var s := SettingsOf(BuildCanaryAlarm(params).value.properties);
      ResolveAlarmConfig(s) == s
  {
  }

  /** The alarm does not otherwise depend on the function version: with
      another version the outcome is the same, and a built alarm differs only
      in its `ExecutedVersion` dimension; in particular its name is reused. */
  lemma AlarmNameIgnoresVersion(params: CanaryAlarmParams, versionName: string)
    ensures var a := BuildCanaryAlarm(params);
      var b := BuildCanaryAlarm(params.(versionName := versionName));
      && (a.Failure? ==> b == a)
      && (a.Success? ==> b.Success? && b.value == a.value.(properties := a.value.properties.(
            dimensions := a.value.properties.dimensions[2 := Dimension("ExecutedVersion", GetAtt(versionName, "Version"))])))
  {
  }

  // ---------------------------------------------------------------------
  // buildCompositeAlarm
  // ---------------------------------------------------------------------

  /** The destructured argument of `buildCompositeAlarm`; `None` ids stand
      for a missing list. */
  datatype CompositeAlarmParams = CompositeAlarmParams(
    alarmName: string,
    alarmLogicalIds: Option<seq<string>>,
    serviceName: string,
    stage: string)

  const ClauseOpen := "ALARM(${"
  const ClauseClose := "})"
  const OrSeparator := " OR "

  /** `ALARM(${id})`: the clause that is true while the alarm `id` is in ALARM. */
  function AlarmClause(id: string): (r: string)
    ensures |r| == |id| + 10
    ensures r[..8] == "ALARM(${" && r[8..|r| - 2] == id && r[|r| - 2..] == "})"
  {
    ClauseOpen + id + ClauseClose
  }

  /** `ids.map(id => ALARM(${id}))` */
  function AlarmClauses(ids: seq<string>): (r: seq<string>)
    ensures |r| == |ids|
    ensures forall i :: 0 <= i < |ids| ==> r[i] == AlarmClause(ids[i])
  {
    if ids == [] then [] else [AlarmClause(ids[0])] + AlarmClauses(ids[1..])
  }

  /** `Array.prototype.join(separator)` on strings. */
  function JoinStrings(parts: seq<string>, separator: string): (r: string)
    ensures |parts| == 0 ==> r == ""
    ensures |parts| > 0 ==> |r| == TotalLength(parts) + (|parts| - 1) * |separator|
  {
    if |parts| == 0 then ""
    else if |parts| == 1 then parts[0]
    else parts[0] + separator + JoinStrings(parts[1..], separator)
  }

  /** The composite alarm's rule text. */
  function AlarmRule(ids: seq<string>): (r: string)
    ensures r == "" <==> |ids| == 0
  {
    JoinStrings(AlarmClauses(ids), OrSeparator)
  }

  /** With one id the rule is that id's clause alone, with no separator. */
  lemma AlarmRuleOfOne(id: string)
    ensures AlarmRule([id]) == AlarmClause(id)
  {
  }

  /** With more ids the rule is the first id's clause, the separator, and the
      rule of the remaining ids: clauses keep the input order. */
  lemma AlarmRuleOfMore(ids: seq<string>)
    requires |ids| > 1
    ensures AlarmRule(ids) == AlarmClause(ids[0]) + OrSeparator + AlarmRule(ids[1..])
  {
  }

  /** Rejects a missing or empty id list; otherwise emits the composite alarm
      whose rule ORs one clause per id, in the given order. */
  function BuildCompositeAlarm(params: CompositeAlarmParams): (r: Result<Resource, AlarmError>)
    ensures r.Failure? <==> params.alarmLogicalIds.None? || |params.alarmLogicalIds.value| == 0
    ensures r.Failure? ==> r.error == NoAlarmLogicalIds
    ensures r.Success? ==>
      && r.value.resourceType == CompositeAlarmType
      && r.value.properties.CompositeAlarmProperties?
      && r.value.properties.alarmName == Sub(ScopedName(params.serviceName, params.stage, params.alarmName))
      && r.value.properties.alarmDescription == CompositeAlarmDescription
      && r.value.properties.alarmRule == Sub(AlarmRule(params.alarmLogicalIds.value))
  {
    if params.alarmLogicalIds.None? || |params.alarmLogicalIds.value| == 0 then
      Failure(NoAlarmLogicalIds)
    else
      Success(Resource(
        CompositeAlarmType,
        CompositeAlarmProperties(
          Sub(ScopedName(params.serviceName, params.stage, params.alarmName)),
          CompositeAlarmDescription,
          Sub(AlarmRule(params.alarmLogicalIds.value)))))
  }

  // ---------------------------------------------------------------------
  // Reading a rule back
  // ---------------------------------------------------------------------

  /** The position of the first `c` in `s`, or `|s|` when there is none. */
  function IndexOf(s: string, c: char): (r: nat)
    ensures r <= |s|
    ensures r < |s| ==> s[r] == c
    ensures forall i :: 0 <= i < r ==> s[i] != c
  {
    if |s| == 0 then 0
    else if s[0] == c then 0
    else 1 + IndexOf(s[1..], c)
  }

  /** Reads a rule of the form `ALARM(${id}) OR ... OR ALARM(${id})` back
      into its ids, or `None` when the text does not have that form. */
  function ParseAlarmRule(s: string): Option<seq<string>>
    decreases |s|
  {
    if |s| < |ClauseOpen| || s[..|ClauseOpen|] != ClauseOpen then None
    else
      var rest := s[|ClauseOpen|..];
      var k := IndexOf(rest, '}');
      if |rest| < k + |ClauseClose| || rest[k..k + |ClauseClose|] != ClauseClose then None
      else
        var id := rest[..k];
        var tail := rest[k + |ClauseClose|..];
        if tail == [] then Some([id])
        else if |tail| < |OrSeparator| || tail[..|OrSeparator|] != OrSeparator then None
        else
          match ParseAlarmRule(tail[|OrSeparator|..])
          case None => None
          case Some(more) => Some([id] + more)
  }

  /** An id the rule text can be read back from: it holds no `}`. */
  predicate PlainId(id: string) {
    '}' !in id
  }

  /** The first clause of a rule is read back as the first id, whatever follows it. */
  lemma ParseFirstClause(id: string, tail: string)
    requires PlainId(id)
    ensures var s := AlarmClause(id) + tail;
      && |s| >= |ClauseOpen| && s[..|ClauseOpen|] == ClauseOpen
      && IndexOf(s[|ClauseOpen|..], '}') == |id|
      && s[|ClauseOpen|..][..|id|] == id
      && s[|ClauseOpen|..][|id|..|id| + |ClauseClose|] == ClauseClose
      && s[|ClauseOpen|..][|id| + |ClauseClose|..] == tail
  {
    var s := AlarmClause(id) + tail;
    var rest := s[|ClauseOpen|..];
    assert s == ClauseOpen + (id + ClauseClose + tail);
    assert rest == id + ClauseClose + tail;
    assert forall i :: 0 <= i < |id| ==> rest[i] == id[i];
    assert rest[|id|] == '}';
  }

  /** A single clause is read back as its id. */
  lemma ParseOneClause(id: string)
    requires PlainId(id)
    ensures ParseAlarmRule(AlarmClause(id)) == Some([id])
  {
    assert AlarmClause(id) == AlarmClause(id) + "";
    ParseFirstClause(id, "");
  }

  /** A clause followed by the separator is read back as its id followed by
      whatever the rest of the text reads back as. */
  lemma ParseClauseThenRest(id: string, rest: string)
    requires PlainId(id)
    ensures ParseAlarmRule(AlarmClause(id) + (OrSeparator + rest)) ==
      if ParseAlarmRule(rest).Some? then Some([id] + ParseAlarmRule(rest).value) else None
  {
    var tail := OrSeparator + rest;
    ParseFirstClause(id, tail);
    assert tail[..|OrSeparator|] == OrSeparator;
    assert tail[|OrSeparator|..] == rest;
  }

  /** The rule text names every id once, in order, duplicates kept: reading it
      back gives the ids. */
  lemma {:induction false} AlarmRuleRoundTrip(ids: seq<string>)
    requires |ids| > 0
    requires forall id <- ids :: PlainId(id)
    ensures ParseAlarmRule(AlarmRule(ids)) == Some(ids)
  {
    if |ids| == 1 {
      AlarmRuleOfOne(ids[0]);
      ParseOneClause(ids[0]);
      assert [ids[0]] == ids;
    } else {
      var more := ids[1..];
      AlarmRuleOfMore(ids);
      assert AlarmRule(ids) == AlarmClause(ids[0]) + (OrSeparator + AlarmRule(more));
      ParseClauseThenRest(ids[0], AlarmRule(more));
      AlarmRuleRoundTrip(more);
      assert [ids[0]] + more == ids;
    }
  }

  /** The rule of a built composite alarm names exactly the given alarms, in order. */
  lemma CompositeRuleNamesEveryAlarm(params: CompositeAlarmParams)
    requires params.alarmLogicalIds.Some? && |params.alarmLogicalIds.value| > 0
    requires forall id <- params.alarmLogicalIds.value :: PlainId(id)
    ensures BuildCompositeAlarm(params).Success?
    ensures ParseAlarmRule(BuildCompositeAlarm(params).value.properties.alarmRule.template)
      == params.alarmLogicalIds
  {
    AlarmRuleRoundTrip(params.alarmLogicalIds.value);
  }

  /** With n ids the rule text is n clauses and n - 1 separators long. */
  lemma {:induction false} AlarmRuleLength(ids: seq<string>)
    requires |ids| > 0
    ensures |AlarmRule(ids)| == TotalLength(ids) + |ids| * |ClauseOpen + ClauseClose| + (|ids| - 1) * |OrSeparator|
  {
    if |ids| > 1 {
      assert AlarmClauses(ids) == [AlarmClause(ids[0])] + AlarmClauses(ids[1..]);
      assert AlarmRule(ids) == AlarmClause(ids[0]) + OrSeparator + AlarmRule(ids[1..]);
      AlarmRuleLength(ids[1..]);
    }
  }

  /** The total length of the ids. */
  function TotalLength(ids: seq<string>): nat {
    if ids == [] then 0 else |ids[0]| + TotalLength(ids[1..])
  }
}
