/**
 * Status snapshots of a pipeline component, in the two shapes the plugin has:
 * the classic `SimpleStatus` and the workflow `WorkflowStatus`. Both reduce to
 * a `StatusView`: the status kind and the time of the last run.
 */
module Status {
  import opened Wrappers

  /** The kind of a status. Only FAILED versus everything else drives the ordering;
      kinds other than FAILED and SUCCESS are folded into `Other`. */
  datatype StatusType = Failed | Success | Other(name: string)

  /** A promotion record of a classic status; its contents never affect ordering. */
  datatype PromotionStatus = PromotionStatus(name: string)

  /** The last-run time is epoch milliseconds, or `None` for a component that has never run. */
  type Millis = Option<int>

  /** Status of a classic delivery-pipeline component: kind, last activity, duration,
      whether it was promoted, and its promotions. */
  datatype SimpleStatus = SimpleStatus(
    statusType: StatusType,
    lastActivity: Millis,
    duration: int,
    promoted: bool,
    promotions: seq<PromotionStatus>)

  /** Status of a workflow pipeline component: kind, last activity and duration. */
  datatype WorkflowStatus = WorkflowStatus(statusType: StatusType, lastActivity: Millis, duration: int)

  /** What every status offers the comparator: its kind and its last-run time. */
  datatype StatusView = StatusView(statusType: StatusType, lastActivity: Millis)

  function ViewOfSimple(s: SimpleStatus): StatusView
  {
    StatusView(s.statusType, s.lastActivity)
  }

  function ViewOfWorkflow(s: WorkflowStatus): StatusView
  {
    StatusView(s.statusType, s.lastActivity)
  }
}
