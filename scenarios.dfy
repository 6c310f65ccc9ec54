/**
 * The orders the comparator's tests assert, each proved for every clock reading
 * rather than for one run: a list is built by appending components one by one,
 * sorted with `Compare`, and the result is exactly the asserted list.
 */
module FailedJobComparatorTest {
  import opened Wrappers
  import opened Status
  import opened Domain
  import opened ListSort
  import opened FailedJobComparator

  const DayMillis: int := 24 * 60 * 60 * 1000

  /** The classic fixture status: a kind and a last-run time, with duration 10,
      not promoted, and no promotions. */
  function StatusAt(kind: StatusType, lastRunAt: int): (s: SimpleStatus)
    ensures ViewOfSimple(s) == StatusView(kind, Some(lastRunAt))
    ensures s.duration == 10 && !s.promoted && s.promotions == []
  {
    SimpleStatus(kind, Some(lastRunAt), 10, false, [])
  }

  /** The component builder: a classic component with the given status. */
  function ClassicComponent(s: SimpleStatus): Component
  {
    DeliveryPipelineComponent(Some(s))
  }

  /** The component builder: a workflow component with the given status. */
  function WorkflowComponent(s: WorkflowStatus): Component
  {
    WorkflowPipelineComponent(Some(s))
  }

  /** Builds a list by appending `added` in order and sorts it in place with `Compare`:
      the result is sorted and holds the same elements. */
  method NewSortedList(added: seq<Option<Component>>) returns (sorted: seq<Option<Component>>)
    ensures |sorted| == |added|
    ensures Sorted(Compare, sorted)
    ensures multiset(sorted) == multiset(added)
  {
    var list := new Option<Component>[|added|];
    for i := 0 to |added|
      invariant list[..i] == added[..i]
    {
      list[i] := added[i];
    }
    assert list[..] == added;
    CompareIsComparator();
    Sort(list, Compare);
    sorted := list[..];
    assert |sorted| == |multiset(sorted)| == |multiset(added)| == |added|;
  }

  /** [successful, failed], both run a day before their own clock reading, sorts
      to [failed, successful]. */
  method ShouldSortFailedBeforeSuccessful(failedClock: int, successfulClock: int)
    returns (list: seq<Option<Component>>)
    ensures list == [Some(ClassicComponent(StatusAt(Failed, failedClock - DayMillis))),
                     Some(ClassicComponent(StatusAt(Success, successfulClock - DayMillis)))]
  {
    var failedComponent := ClassicComponent(StatusAt(Failed, failedClock - DayMillis));
    var successfulComponent := ClassicComponent(StatusAt(Success, successfulClock - DayMillis));
    list := NewSortedList([Some(successfulComponent), Some(failedComponent)]);
    var expected := [Some(failedComponent), Some(successfulComponent)];
    FailedBeforeSuccessful(failedComponent, successfulComponent);
    assert multiset(list) == multiset(expected);
    SortedPermutationUnique(Compare, expected, list);
  }

  /** [successful 1 day ago, failed 1 day ago, failed 10 days ago] sorts to
      [failed 1 day ago, failed 10 days ago, successful]. Each component reads the
      clock once; the clock does not go back nine days between the first two readings. */
  method ShouldSortRecentlyRunFirstIfSameStatus(longAgoClock: int, failedClock: int, successfulClock: int)
    returns (list: seq<Option<Component>>)
    requires longAgoClock - 10 * DayMillis < failedClock - DayMillis
    ensures list == [Some(ClassicComponent(StatusAt(Failed, failedClock - DayMillis))),
                     Some(ClassicComponent(StatusAt(Failed, longAgoClock - 10 * DayMillis))),
                     Some(ClassicComponent(StatusAt(Success, successfulClock - DayMillis)))]
  {
    var failedComponentRunLongAgo := ClassicComponent(StatusAt(Failed, longAgoClock - 10 * DayMillis));
    var failedComponent := ClassicComponent(StatusAt(Failed, failedClock - DayMillis));
    var successfulComponent := ClassicComponent(StatusAt(Success, successfulClock - DayMillis));
    list := NewSortedList([Some(successfulComponent), Some(failedComponent), Some(failedComponentRunLongAgo)]);
    var expected := [Some(failedComponent), Some(failedComponentRunLongAgo), Some(successfulComponent)];
    RecentlyRunFirst(failedComponent, failedComponentRunLongAgo);
    FailedBeforeSuccessful(failedComponent, successfulComponent);
    FailedBeforeSuccessful(failedComponentRunLongAgo, successfulComponent);
    assert multiset(list) == multiset(expected);
    SortedPermutationUnique(Compare, expected, list);
  }

  /** [never run, successful, failed] sorts to [failed, successful, never run],
      however the classic fixture encodes "never run". */
  method ShouldSortNotRunJobLast(notRunComponent: Component, successfulClock: int, failedClock: int)
    returns (list: seq<Option<Component>>)
    requires notRunComponent.DeliveryPipelineComponent? && !HasRun(notRunComponent)
    ensures list == [Some(ClassicComponent(StatusAt(Failed, failedClock - DayMillis))),
                     Some(ClassicComponent(StatusAt(Success, successfulClock - DayMillis))),
                     Some(notRunComponent)]
  {
    var successfulComponent := ClassicComponent(StatusAt(Success, successfulClock - DayMillis));
    var failedComponent := ClassicComponent(StatusAt(Failed, failedClock - DayMillis));
    list := NewSortedList([Some(notRunComponent), Some(successfulComponent), Some(failedComponent)]);
    var expected := [Some(failedComponent), Some(successfulComponent), Some(notRunComponent)];
    FailedBeforeSuccessful(failedComponent, successfulComponent);
    NotRunLast(failedComponent, Some(notRunComponent));
    NotRunLast(successfulComponent, Some(notRunComponent));
    assert multiset(list) == multiset(expected);
    SortedPermutationUnique(Compare, expected, list);
  }

  /** Workflow components: [SUCCESS at 1000, FAILED at 1000] sorts to [failed, successful]. */
  method ShouldSortFailedWorkflowPipelinesBeforeSuccessful() returns (list: seq<Option<Component>>)
    ensures list == [Some(WorkflowComponent(WorkflowStatus(Failed, Some(1000), 100))),
                     Some(WorkflowComponent(WorkflowStatus(Success, Some(1000), 100)))]
  {
    var failedComponent := WorkflowComponent(WorkflowStatus(Failed, Some(1000), 100));
    var successfulComponent := WorkflowComponent(WorkflowStatus(Success, Some(1000), 100));
    list := NewSortedList([Some(successfulComponent), Some(failedComponent)]);
    var expected := [Some(failedComponent), Some(successfulComponent)];
    FailedBeforeSuccessful(failedComponent, successfulComponent);
    assert multiset(list) == multiset(expected);
    SortedPermutationUnique(Compare, expected, list);
  }

  /** Workflow components: [SUCCESS at 9000, FAILED at 9000, FAILED at 1000] sorts to
      [FAILED at 9000, FAILED at 1000, SUCCESS at 9000]. */
  method ShouldSortRecentlyRunWorkflowPipelinesFirstIfSameStatus() returns (list: seq<Option<Component>>)
    ensures list == [Some(WorkflowComponent(WorkflowStatus(Failed, Some(9000), 100))),
                     Some(WorkflowComponent(WorkflowStatus(Failed, Some(1000), 100))),
                     Some(WorkflowComponent(WorkflowStatus(Success, Some(9000), 100)))]
  {
    var failedComponentRunLongAgo := WorkflowComponent(WorkflowStatus(Failed, Some(1000), 100));
    var failedComponent := WorkflowComponent(WorkflowStatus(Failed, Some(9000), 100));
    var successfulComponent := WorkflowComponent(WorkflowStatus(Success, Some(9000), 100));
    list := NewSortedList([Some(successfulComponent), Some(failedComponent), Some(failedComponentRunLongAgo)]);
    var expected := [Some(failedComponent), Some(failedComponentRunLongAgo), Some(successfulComponent)];
    RecentlyRunFirst(failedComponent, failedComponentRunLongAgo);
    FailedBeforeSuccessful(failedComponent, successfulComponent);
    FailedBeforeSuccessful(failedComponentRunLongAgo, successfulComponent);
    assert multiset(list) == multiset(expected);
    SortedPermutationUnique(Compare, expected, list);
  }

  /** Workflow components: [never run, SUCCESS at 1000, FAILED at 9000] sorts to
      [failed, successful, never run], however the workflow fixture encodes "never run". */
  method ShouldSortNotRunWorkflowPipelineLast(notRunComponent: Component) returns (list: seq<Option<Component>>)
    requires notRunComponent.WorkflowPipelineComponent? && !HasRun(notRunComponent)
    ensures list == [Some(WorkflowComponent(WorkflowStatus(Failed, Some(9000), 100))),
                     Some(WorkflowComponent(WorkflowStatus(Success, Some(1000), 100))),
                     Some(notRunComponent)]
  {
    var successfulComponent := WorkflowComponent(WorkflowStatus(Success, Some(1000), 100));
    var failedComponent := WorkflowComponent(WorkflowStatus(Failed, Some(9000), 100));
    list := NewSortedList([Some(notRunComponent), Some(successfulComponent), Some(failedComponent)]);
    var expected := [Some(failedComponent), Some(successfulComponent), Some(notRunComponent)];
    FailedBeforeSuccessful(failedComponent, successfulComponent);
    NotRunLast(failedComponent, Some(notRunComponent));
    NotRunLast(successfulComponent, Some(notRunComponent));
    assert multiset(list) == multiset(expected);
    SortedPermutationUnique(Compare, expected, list);
  }

  /** Comparing two nulls gives zero. */
  lemma ShouldHandleNullParameters()
    ensures Compare(None, None) == 0
  {
  }

  /** A successful component compares below null, and null above it. */
  lemma ShouldBeAbleToCompareWithNull(clock: int)
    ensures Compare(Some(ClassicComponent(StatusAt(Success, clock))), None) < 0
    ensures Compare(None, Some(ClassicComponent(StatusAt(Success, clock)))) > 0
  {
  }
}
