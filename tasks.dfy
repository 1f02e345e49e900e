/**
 * The app's task record: a title, an estimate and the minutes still to do, whether it is the
 * active task, when it was created, and the identifier of the reminder it is linked to.
 */
module Tasks {
  import opened Wrappers

  /** `max(0, x)`. */
  function NonNegative(x: int): (r: nat)
    ensures r >= x && (r == x || r == 0)
  {
    if x < 0 then 0 else x
  }

  /**
   * The remaining minutes after completing `minutes` of work: a negative amount of work counts
   * as none, and the result never drops below zero.
   */
  function AfterCompletion(remaining: int, minutes: int): (r: int)
    ensures r >= 0
    ensures remaining >= 0 ==> r <= remaining
    ensures minutes <= 0 && remaining >= 0 ==> r == remaining
    ensures r > 0 ==> (minutes >= 0 && r == remaining - minutes) || (minutes < 0 && r == remaining)
  {
    NonNegative(remaining - NonNegative(minutes))
  }

  /**
   * The remaining minutes kept by an estimate update: the requested value clamped into
   * `[0, estimated]`.
   */
  function ClampRemaining(requested: int, estimated: nat): (r: int)
    ensures 0 <= r <= estimated
    ensures r == requested <==> 0 <= requested <= estimated
    ensures requested > estimated ==> r == estimated
    ensures requested < 0 ==> r == 0
  {
    if NonNegative(requested) < estimated then NonNegative(requested) else estimated
  }

  class TodoItem {
    var title: string
    var estimatedMinutes: int
    var remainingMinutes: int
    var isActive: bool
    var createdAt: int
    var reminderIdentifier: Option<string>

    /** The bound the task's own methods keep: `0 <= remaining <= estimated`. */
    ghost predicate Valid()
      reads this
    {
      0 <= remainingMinutes <= estimatedMinutes
    }

    /**
     * A new task: estimate and remaining both start at the estimate, raised to zero if negative.
     * The reminder identifier is the extra argument the sync code passes.
     */
    constructor(title: string, estimatedMinutes: int, isActive: bool, createdAt: int, reminderIdentifier: Option<string>)
      ensures Valid()
      ensures this.title == title && this.isActive == isActive && this.createdAt == createdAt
      ensures this.estimatedMinutes == NonNegative(estimatedMinutes)
      ensures this.remainingMinutes == this.estimatedMinutes
      ensures this.reminderIdentifier == reminderIdentifier
    {
      this.title := title;
      this.estimatedMinutes := NonNegative(estimatedMinutes);
      this.remainingMinutes := NonNegative(estimatedMinutes);
      this.isActive := isActive;
      this.createdAt := createdAt;
      this.reminderIdentifier := reminderIdentifier;
    }

    /** Records `minutes` of completed work; only the remaining minutes change. */
    method ApplyCompletion(minutes: int)
      modifies this
      ensures remainingMinutes == AfterCompletion(old(remainingMinutes), minutes)
      ensures old(Valid()) ==> Valid()
      ensures title == old(title) && estimatedMinutes == old(estimatedMinutes) && isActive == old(isActive)
      ensures createdAt == old(createdAt) && reminderIdentifier == old(reminderIdentifier)
    {
      var delta := NonNegative(minutes);
      remainingMinutes := NonNegative(remainingMinutes - delta);
    }

    /** Sets a new estimate and remaining time; afterwards `0 <= remaining <= estimated` always holds. */
    method UpdateEstimates(estimated: int, remaining: int)
      modifies this
      ensures estimatedMinutes == NonNegative(estimated)
      ensures remainingMinutes == ClampRemaining(remaining, estimatedMinutes)
      ensures Valid()
      ensures title == old(title) && isActive == old(isActive)
      ensures createdAt == old(createdAt) && reminderIdentifier == old(reminderIdentifier)
    {
      var newEstimated := NonNegative(estimated);
      estimatedMinutes := newEstimated;
      remainingMinutes := if NonNegative(remaining) < newEstimated then NonNegative(remaining) else newEstimated;
    }
  }
}
