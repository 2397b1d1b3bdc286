/** The fragment of a CloudFormation template body that the alarm generators emit.
    Intrinsic functions are opaque constructors: nothing here evaluates them. */
module CloudFormation {

  /** A property value: a literal string or one of the intrinsics
      `Ref`, `Fn::Join`, `Fn::GetAtt` and `Fn::Sub`. */
  datatype CfnValue =
    | Str(text: string)
    | Ref(logicalId: string)
    | Join(separator: string, parts: seq<CfnValue>)
    | GetAtt(resourceId: string, attribute: string)
    | Sub(template: string)

  /** One `{ Name, Value }` entry of an alarm's `Dimensions` list. */
  datatype Dimension = Dimension(name: string, value: CfnValue)

  /** The `Properties` block of a metric alarm or of a composite alarm. */
  datatype Properties =
    | MetricAlarmProperties(
        alarmName: CfnValue,
        alarmDescription: string,
        metricName: string,
        namespace: string,
        dimensions: seq<Dimension>,
        statistic: string,
        period: int,
        evaluationPeriods: int,
        datapointsToAlarm: int,
        threshold: int,
        comparisonOperator: string,
        treatMissingData: string)
    | CompositeAlarmProperties(
        alarmName: CfnValue,
        alarmDescription: string,
        alarmRule: CfnValue)

  /** A resource body `{ Type, Properties }`. */
  datatype Resource = Resource(resourceType: string, properties: Properties)
}
