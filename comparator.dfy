/**
 * The failed-first comparator: failed components first, then the other
 * components that have run, each group most recent first; then components that
 * have never run; a null reference last of all.
 */
module FailedJobComparator {
  import opened Wrappers
  import opened Status
  import opened Domain
  import opened ListSort

  /** The ordering key of a (possibly null) component: a priority bucket, lower
      first, and the last-run time, larger first. */
  datatype Key = Key(bucket: nat, recency: int)

  const FailedBucket: nat := 0
  const RanBucket: nat := 1
  const NeverRunBucket: nat := 2
  const NullBucket: nat := 3

  function KeyOf(c: Option<Component>): Key
  {
    match c
    case None => Key(NullBucket, 0)
    case Some(comp) =>
      if !HasRun(comp) then Key(NeverRunBucket, 0)
      else if IsFailed(comp) then Key(FailedBucket, LastRun(comp))
      else Key(RanBucket, LastRun(comp))
  }

  /** Three-way comparison: negative when `a` goes first, positive when `b` does.
      Never fails, whichever of its arguments is null. */
  function Compare(a: Option<Component>, b: Option<Component>): (r: int)
    ensures a == None && b == None ==> r == 0
    ensures a != None && b == None ==> r < 0
    ensures a == None && b != None ==> r > 0
  {
    var ka, kb := KeyOf(a), KeyOf(b);
    if ka.bucket < kb.bucket then -1
    else if ka.bucket > kb.bucket then 1
    else if ka.recency > kb.recency then -1
    else if ka.recency < kb.recency then 1
    else 0
  }

  /** The ordering rules written case by case, independently of `KeyOf`:
      `a` strictly precedes `b`. */
  ghost predicate GoesBefore(a: Option<Component>, b: Option<Component>)
  {
    match (a, b)
    case (None, _) => false
    case (Some(_), None) => true
    case (Some(x), Some(y)) =>
      if HasRun(x) && !HasRun(y) then true
      else if !HasRun(x) then false
      else if IsFailed(x) && !IsFailed(y) then true
      else if IsFailed(y) && !IsFailed(x) then false
      else LastRun(x) > LastRun(y)
  }

  /** `a` and `b` are interchangeable for the ordering. */
  ghost predicate Tied(a: Option<Component>, b: Option<Component>)
  {
    match (a, b)
    case (None, None) => true
    case (Some(x), Some(y)) =>
      if !HasRun(x) || !HasRun(y) then !HasRun(x) && !HasRun(y)
      else IsFailed(x) == IsFailed(y) && LastRun(x) == LastRun(y)
    case _ => false
  }

  lemma CompareMatchesRules(a: Option<Component>, b: Option<Component>)
    ensures Compare(a, b) < 0 <==> GoesBefore(a, b)
    ensures Compare(a, b) > 0 <==> GoesBefore(b, a)
    ensures Compare(a, b) == 0 <==> Tied(a, b)
  {
  }

  /** Comparator contract: sign flips when the arguments are swapped. */
  lemma CompareAntisymmetric(a: Option<Component>, b: Option<Component>)
    ensures Compare(a, b) < 0 <==> Compare(b, a) > 0
    ensures Compare(a, b) == 0 <==> Compare(b, a) == 0
  {
  }

  lemma CompareReflexive(a: Option<Component>)
    ensures Compare(a, a) == 0
  {
  }

  /** Comparator contract: "not after" is transitive. */
  lemma CompareTransitive(a: Option<Component>, b: Option<Component>, c: Option<Component>)
    requires Compare(a, b) <= 0 && Compare(b, c) <= 0
    ensures Compare(a, c) <= 0
  {
  }

  /** `Compare` meets the contract `List.sort` relies on. */
  lemma CompareIsComparator()
    ensures IsComparator(Compare)
  {
  }

  /** A failed run precedes any non-failed run, whatever the two run times. */
  lemma FailedBeforeSuccessful(failed: Component, other: Component)
    requires HasRun(failed) && IsFailed(failed)
    requires HasRun(other) && !IsFailed(other)
    ensures Compare(Some(failed), Some(other)) < 0
    ensures Compare(Some(other), Some(failed)) > 0
  {
  }

  /** Among components that ran with the same failed-ness, the more recent goes first. */
  lemma RecentlyRunFirst(recent: Component, older: Component)
    requires HasRun(recent) && HasRun(older)
    requires IsFailed(recent) == IsFailed(older)
    requires LastRun(recent) > LastRun(older)
    ensures Compare(Some(recent), Some(older)) < 0
    ensures Compare(Some(older), Some(recent)) > 0
  {
  }

  /** A component that has run precedes one that has never run, failed or not,
      and precedes a null reference. */
  lemma NotRunLast(ran: Component, notRun: Option<Component>)
    requires HasRun(ran)
    requires notRun.None? || !HasRun(notRun.value)
    ensures Compare(Some(ran), notRun) < 0
    ensures Compare(notRun, Some(ran)) > 0
  {
  }

  /** Only the status kind and the last-run time matter: two components with the
      same status view compare alike against everything. */
  lemma OnlyStatusViewMatters(a: Component, a': Component, b: Option<Component>)
    requires StatusOf(a) == StatusOf(a')
    ensures Compare(Some(a), b) == Compare(Some(a'), b)
    ensures Compare(b, Some(a)) == Compare(b, Some(a'))
  {
  }

  /** A classic and a workflow component with the same kind and last-run time are
      indistinguishable to the comparator; duration, the promoted flag and the
      promotions play no role. */
  lemma ClassicAndWorkflowAgree(
    kind: StatusType, lastActivity: Millis,
    duration: int, promoted: bool, promotions: seq<PromotionStatus>,
    workflowDuration: int, other: Option<Component>)
    ensures
      var classic := DeliveryPipelineComponent(Some(SimpleStatus(kind, lastActivity, duration, promoted, promotions)));
      var workflow := WorkflowPipelineComponent(Some(WorkflowStatus(kind, lastActivity, workflowDuration)));
      Compare(Some(classic), other) == Compare(Some(workflow), other) &&
      Compare(other, Some(classic)) == Compare(other, Some(workflow))
  {
  }
}
