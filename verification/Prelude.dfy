/** Small datatypes shared by the whole model. */
module Prelude {
  datatype Option<+T> = None | Some(value: T) {
    predicate IsFailure() { None? }

    function PropagateFailure<U>(): Option<U>
      requires None?
    {
      None
    }

    function Extract(): T
      requires Some?
    {
      value
    }
  }

  datatype Result<+T, +E> = Ok(value: T) | Err(error: E)

  /** The field names of a ChartpressConfig's .spec block. */
  datatype Field =
    | UmbrellaChartNameField | DescriptionField | SubchartsField | RulesField | DependenciesField
    | NameField | WorkloadField | PatternField | ExposureField | PortField | IngressField | ScalingField | SharedEnvField
    | CommonAnnotationsField | LinkedTemplatesField | ResourceNamesField | SharedSecretsField | SharedNewrelicField
    | UmbrellaReadmeField | SubchartReadmeField | IncludeDocsField | HandoffField
    | OtherField(text: string)

  /** A JSON value, as the CR's .spec block carries it; numbers are whole. */
  datatype Json =
    | JNull
    | JBool(b: bool)
    | JNum(n: int)
    | JStr(s: string)
    | JList(items: seq<Json>)
    | JObj(fields: map<Field, Json>)
}
