/**
 * The SampleOperator custom resource: the parent object the reconciler converges
 * children for. Only its status is ever written by the reconciler; the spec fields
 * are carried along but never read.
 */
module ApiV1 {

  import opened Meta

  /** User intent. Neither field is read by the reconciler. */
  datatype SampleOperatorSpec = SampleOperatorSpec(size: int, serviceInstanceName: string)

  /** Observed state: the name of the config map the parent points at. */
  datatype SampleOperatorStatus = SampleOperatorStatus(sampleConfigMap: string)

  datatype SampleOperator = SampleOperator(
    meta: ObjectMeta,
    spec: SampleOperatorSpec,
    status: SampleOperatorStatus)
}
