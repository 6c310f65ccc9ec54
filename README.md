# Failed-first ordering of pipeline components

This project models the failed-first job comparator of the Delivery Pipeline
Plugin for Jenkins, and the in-place list sort that the plugin runs with it. The
comparator orders pipeline components for display. Failed components come first.
Next come the other components that have run. Within each of those two groups the
most recent run comes first. Components that have never run come after them, and a
null reference comes last of all. The comparator must order two unrelated component
representations alike: the classic component, whose status is a `SimpleStatus`,
and the workflow component, whose status is a `WorkflowStatus`.

The comparator's own Java class is not part of this model. Its behaviour is fixed
by its test class, `FailedJobComparatorTest`, which is the only source cited below.
`Compare` is defined by an ordering key. The key's bucket is, in order: failed and
run, run, non-null but never run, null. Within the same bucket, the later run comes
first. Every order the tests assert is proved as a consequence of this key. The
classic scenarios hold for all clock readings, except that one of them needs the
clock not to go back nine days between two readings. The workflow scenarios hold at
the test's literal times, 1000 and 9000. Both never-run scenarios hold for any
never-run component.

Files and modules:

- `wrappers.dfy` (`Wrappers`): `Option`, standing in for a Java reference that may be null.
- `status.dfy` (`Status`): `StatusType`; `SimpleStatus`, which holds a kind, a last activity, a duration, a promoted flag and promotions; `WorkflowStatus`, which holds a kind, a last activity and a duration; and `StatusView`, the part that both share.
- `component.dfy` (`Domain`): the two component representations. It also defines the shared accessor `StatusOf` and the predicates `HasRun`, `IsFailed` and `LastRun`.
- `comparator.dfy` (`FailedJobComparator`): `Compare`, a case-by-case statement of the ordering rules (`GoesBefore`, `Tied`), and the comparator's laws.
- `list_sort.dfy` (`ListSort`): `List.sort(comparator)` as an in-place insertion sort on an array. It is generic in the comparator, as in Java. The module also proves that a sorted rearrangement of a tie-free list is unique.
- `scenarios.dfy` (`FailedJobComparatorTest`): each sorting test as a method. The method appends components to a fresh list, sorts it with `Compare`, and proves the exact resulting list. The two null-comparison tests are lemmas about `Compare`.

## Model

| member | source | states |
|---|---|---|
| `FailedJobComparator.Compare` | src/test/java/se/diabol/jenkins/pipeline/sort/FailedJobComparatorTest.java:149-159 | total on null arguments: two nulls compare equal; a non-null component compares below null, and null above it |
| `FailedJobComparator.CompareMatchesRules` | src/test/java/se/diabol/jenkins/pipeline/sort/FailedJobComparatorTest.java:45-159 | `Compare` is negative exactly when the rules put `a` first: a ran and b did not, or both ran and only a failed, or both ran with the same failed-ness and a ran later, or a is non-null and b is null. It is zero exactly when the two are tied, and positive exactly in the mirror case |
| `FailedJobComparator.CompareAntisymmetric` | src/test/java/se/diabol/jenkins/pipeline/sort/FailedJobComparatorTest.java:157-158 | swapping the arguments flips the sign and keeps zero as zero |
| `FailedJobComparator.CompareReflexive` | src/test/java/se/diabol/jenkins/pipeline/sort/FailedJobComparatorTest.java:54 | every component, and null, compares equal to itself, as `List.sort` requires |
| `FailedJobComparator.CompareTransitive` | src/test/java/se/diabol/jenkins/pipeline/sort/FailedJobComparatorTest.java:54 | "not after" is transitive, as `List.sort` requires |
| `FailedJobComparator.CompareIsComparator` | src/test/java/se/diabol/jenkins/pipeline/sort/FailedJobComparatorTest.java:54 | `Compare` satisfies the whole comparator contract that the sort relies on |
| `FailedJobComparator.FailedBeforeSuccessful` | src/test/java/se/diabol/jenkins/pipeline/sort/FailedJobComparatorTest.java:46-75 | a failed run precedes any non-failed run, whatever the two run times, so an old failure still precedes a recent success |
| `FailedJobComparator.RecentlyRunFirst` | src/test/java/se/diabol/jenkins/pipeline/sort/FailedJobComparatorTest.java:61-75 | between two runs with the same failed-ness, the later one goes first |
| `FailedJobComparator.NotRunLast` | src/test/java/se/diabol/jenkins/pipeline/sort/FailedJobComparatorTest.java:78-91 | a component that has run precedes one that has never run, and also precedes null, whether it failed or succeeded |
| `FailedJobComparator.OnlyStatusViewMatters` | src/test/java/se/diabol/jenkins/pipeline/sort/FailedJobComparatorTest.java:161-163 | two components with the same status kind and last-run time compare identically against everything |
| `FailedJobComparator.ClassicAndWorkflowAgree` | src/test/java/se/diabol/jenkins/pipeline/sort/FailedJobComparatorTest.java:94-163 | a classic and a workflow component with the same kind and time are interchangeable; duration, promoted flag and promotions play no role |
| `ListSort.Sort` | src/test/java/se/diabol/jenkins/pipeline/sort/FailedJobComparatorTest.java:54 | in-place sort with any comparator that meets the contract: afterwards the array is sorted and is a permutation of its old contents |
| `ListSort.SortedPermutationUnique` | src/test/java/se/diabol/jenkins/pipeline/sort/FailedJobComparatorTest.java:55-57 | a sorted permutation of a list with no ties is that list, so the size and every index are determined |
| `FailedJobComparatorTest.StatusAt` | src/test/java/se/diabol/jenkins/pipeline/sort/FailedJobComparatorTest.java:161-163 | the classic fixture status has duration 10, is not promoted and has no promotions; all the comparator sees of it is the given kind and last-run time |
| `FailedJobComparatorTest.NewSortedList` | src/test/java/se/diabol/jenkins/pipeline/sort/FailedJobComparatorTest.java:51-54 | adding components one by one and sorting with `Compare` yields a sorted list of the same length and the same elements |
| `FailedJobComparatorTest.ShouldSortFailedBeforeSuccessful` | src/test/java/se/diabol/jenkins/pipeline/sort/FailedJobComparatorTest.java:46-57 | [success 1 day ago, failed 1 day ago] sorts to [failed, success] for all clock readings |
| `FailedJobComparatorTest.ShouldSortRecentlyRunFirstIfSameStatus` | src/test/java/se/diabol/jenkins/pipeline/sort/FailedJobComparatorTest.java:61-75 | [success 1d, failed 1d, failed 10d] sorts to [failed 1d, failed 10d, success 1d], provided the clock does not go back nine days between the readings |
| `FailedJobComparatorTest.ShouldSortNotRunJobLast` | src/test/java/se/diabol/jenkins/pipeline/sort/FailedJobComparatorTest.java:78-91 | [never run, success, failed] sorts to [failed, success, never run], for every classic never-run component |
| `FailedJobComparatorTest.ShouldSortFailedWorkflowPipelinesBeforeSuccessful` | src/test/java/se/diabol/jenkins/pipeline/sort/FailedJobComparatorTest.java:94-107 | workflow [SUCCESS@1000, FAILED@1000] sorts to [FAILED@1000, SUCCESS@1000] |
| `FailedJobComparatorTest.ShouldSortRecentlyRunWorkflowPipelinesFirstIfSameStatus` | src/test/java/se/diabol/jenkins/pipeline/sort/FailedJobComparatorTest.java:110-127 | workflow [SUCCESS@9000, FAILED@9000, FAILED@1000] sorts to [FAILED@9000, FAILED@1000, SUCCESS@9000] |
| `FailedJobComparatorTest.ShouldSortNotRunWorkflowPipelineLast` | src/test/java/se/diabol/jenkins/pipeline/sort/FailedJobComparatorTest.java:130-146 | workflow [never run, SUCCESS@1000, FAILED@9000] sorts to [FAILED@9000, SUCCESS@1000, never run], for every workflow never-run component |
| `FailedJobComparatorTest.ShouldHandleNullParameters` | src/test/java/se/diabol/jenkins/pipeline/sort/FailedJobComparatorTest.java:149-151 | `Compare(null, null)` is zero |
| `FailedJobComparatorTest.ShouldBeAbleToCompareWithNull` | src/test/java/se/diabol/jenkins/pipeline/sort/FailedJobComparatorTest.java:154-159 | a successful component compares below null, and null above it, at any clock reading |

## Left out

- The comparator's Java class is not part of this model. `Compare` follows the ordering key described at the top of this file. Four choices that key makes are not pinned by any test: a non-null never-run component ranks above null; fully tied components compare as zero; a status of a kind other than FAILED or SUCCESS counts as not failed; a FAILED status with no last-run time counts as never run, not as failed. The never-run scenarios rely on the last choice.
- FailedJobComparator.Compare: only the sign of the result is meaningful. The model returns -1, 0 or 1; the values the Java class returns are not modelled.
- "Never run" is an absent status or an absent last-run time (`None`). How the fixture builders `createDeliveryPipelineComponentWithNoRuns` and `createWorkflowPipelineComponentWithNoRuns` encode it is not part of this model. A zero or negative timestamp is treated as a real run time. The never-run scenarios therefore take the never-run component as a parameter.
- ListSort.Sort: does not state stability. Java's `List.sort` keeps equal elements in input order, and no test depends on that. The model sorts by insertion, not by Java's merge sort, and promises only sortedness and permutation.
- The factory `FailedJobComparator.DescriptorImpl().createInstance()` and Jenkins extension registration are host plumbing.
- Joda `DateTime` and the wall clock: every `new DateTime()` read becomes an integer parameter in epoch milliseconds, and `minusDays(n)` subtracts n times 86 400 000 ms. Time zones and daylight-saving shifts are not modelled.
- `StatusType` kinds other than FAILED and SUCCESS are folded into one `Other(name)` constructor, and `PromotionStatus` carries only a name. Neither detail affects the ordering.
- Component identity: Java's `assertEquals` on components becomes value equality of the datatype. The components in each test differ in status, so no two of them are equal. The other fields of a component (name, stages) are not modelled.
- Java stores the millisecond timestamps as 64-bit `long` values; the model uses unbounded integers, so it neither bounds the clock readings nor models overflow of `minusDays`.
- JUnit/Hamcrest assertion machinery is not modelled; each assertion becomes a postcondition.
