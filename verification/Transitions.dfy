/** The legal status moves and the controller that applies them. */
module Transitions {
  import opened Common
  import opened Schema

  predicate Legal(from: TaskStatus, to: TaskStatus) {
    match from
    case Pending => to == Ready
    case Ready => to == InProgress || to == Failed
    case InProgress => to == Ready || to == Blocked || to == CandidateComplete || to == Decomposed || to == Failed
    case Blocked => to == Ready || to == Decomposed || to == VerificationPending
    case CandidateComplete => to == VerificationPending
    case VerificationPending => to == Verified || to == Reopened || to == Blocked
    case Reopened => to == Ready || to == Blocked
    case Decomposed | Failed | Verified => false
  }

  /** A task that moves by legal steps only. */
  ghost predicate Path(w: seq<TaskStatus>) {
    forall i :: 0 <= i < |w| - 1 ==> Legal(w[i], w[i + 1])
  }

  /** A task can only become verified from its verification, which only a complete or blocked task comes to. */
  lemma VerifiedWasPending(w: seq<TaskStatus>, i: nat)
    requires Path(w) && 0 < i < |w| && w[i] == Verified
    ensures w[i - 1] == VerificationPending
    ensures i > 1 ==> w[i - 2] == CandidateComplete || w[i - 2] == Blocked
  {
    assert Legal(w[i - 1], w[i]);
    if i > 1 { assert Legal(w[i - 2], w[i - 1]); }
  }

  /** Failed, decomposed and verified tasks stay what they are, and every other status is come to from these only. */
  lemma WhereFrom(w: seq<TaskStatus>, i: nat)
    requires Path(w) && 0 < i < |w|
    ensures w[i - 1] != Failed && w[i - 1] != Decomposed && w[i - 1] != Verified && w[i] != Pending
    ensures w[i] == Ready ==> w[i - 1] == Pending || w[i - 1] == InProgress || w[i - 1] == Blocked || w[i - 1] == Reopened
    ensures w[i] == InProgress ==> w[i - 1] == Ready
    ensures w[i] == Blocked ==> w[i - 1] == InProgress || w[i - 1] == VerificationPending || w[i - 1] == Reopened
    ensures w[i] == CandidateComplete ==> w[i - 1] == InProgress
    ensures w[i] == Decomposed ==> w[i - 1] == InProgress || w[i - 1] == Blocked
    ensures w[i] == Failed ==> w[i - 1] == Ready || w[i - 1] == InProgress
    ensures w[i] == VerificationPending ==> w[i - 1] == CandidateComplete || w[i - 1] == Blocked
    ensures w[i] == Reopened ==> w[i - 1] == VerificationPending
  {
    assert Legal(w[i - 1], w[i]);
  }

  datatype Move = Moved | UnknownTask | IllegalMove

  /** Moving a task into progress makes it active; moving the active task anywhere else clears it. */
  function ActiveAfter(active: Option<TaskId>, id: TaskId, to: TaskStatus): Option<TaskId> {
    if to == InProgress then Some(id) else if active == Some(id) then None else active
  }

  function WithStatus(ts: seq<Task>, k: nat, s: TaskStatus): seq<Task>
    requires k < |ts|
  {
    ts[k := ts[k].(status := s)]
  }

  method Transition(state: ProjectState, id: TaskId, to: TaskStatus) returns (r: Move)
    modifies state`tasks, state`active
    ensures r.UnknownTask? <==> !Known(old(state.tasks), id)
    ensures r.IllegalMove? <==> Find(old(state.tasks), id) < |old(state.tasks)| && !Legal(old(state.tasks[Find(state.tasks, id)]).status, to)
    ensures r.Moved? ==>
              && Find(old(state.tasks), id) < |old(state.tasks)|
              && state.tasks == WithStatus(old(state.tasks), Find(old(state.tasks), id), to)
              && state.active == ActiveAfter(old(state.active), id, to)
    ensures !r.Moved? ==> state.Snap() == old(state.Snap())
  {
    FindKnown(state.tasks, id);
    var k := Find(state.tasks, id);
    if k == |state.tasks| { return UnknownTask; }
    if !Legal(state.tasks[k].status, to) { return IllegalMove; }
    state.tasks := WithStatus(state.tasks, k, to);
    state.active := ActiveAfter(state.active, id, to);
    return Moved;
  }
}
