/**
 * The two component representations the comparator is applied to, and the
 * status accessor they share.
 */
module Domain {
  import opened Wrappers
  import opened Status

  /** A classic delivery-pipeline component or a workflow pipeline component;
      either may lack a status. */
  datatype Component =
    | DeliveryPipelineComponent(simpleStatus: Option<SimpleStatus>)
    | WorkflowPipelineComponent(workflowStatus: Option<WorkflowStatus>)

  /** The status accessor both representations offer. */
  function StatusOf(c: Component): Option<StatusView>
  {
    match c
    case DeliveryPipelineComponent(s) => if s.Some? then Some(ViewOfSimple(s.value)) else None
    case WorkflowPipelineComponent(s) => if s.Some? then Some(ViewOfWorkflow(s.value)) else None
  }

  /** A component has run when it has a status carrying a last-run time. */
  predicate HasRun(c: Component)
  {
    StatusOf(c).Some? && StatusOf(c).value.lastActivity.Some?
  }

  predicate IsFailed(c: Component)
  {
    StatusOf(c).Some? && StatusOf(c).value.statusType == Failed
  }

  function LastRun(c: Component): int
    requires HasRun(c)
  {
    StatusOf(c).value.lastActivity.value
  }
}
