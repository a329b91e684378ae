/** The delete dialog: confirming asks the server to delete the task and closes
    the dialog with the deleted task when the server reports success. */
module DeleteTaskModal {
  import opened Wrappers
  import opened Models
  import opened Http
  import opened Effects

  /** The delete reply: a missing `success` reads as false. */
  datatype DeleteReply = DeleteReply(success: bool, message: Option<string>)

  const NullTargetLog := "taskToDelete is null"
  const UnsuccessfulLog := "Failed to delete task:"
  const DeleteFailureLog := "Error deleting task:"

  /** What one confirmation does. Without a task: a log and one close event
      carrying nothing, and no call. With a task: exactly one delete call with
      its id as it is (even when empty); the dialog closes with that task
      exactly when the reply reports success; an unsuccessful reply logs the
      reply's message (which may be missing), an error logs the error, and
      neither emits anything. */
  function DeleteEffects(target: Option<Task>, outcome: Outcome<DeleteReply>): (r: seq<Effect>)
    ensures target.None? ==> r == [Logged(NullTargetLog, NoDetail), Emitted(DeleteClosed(None))]
    ensures target.Some? ==>
              && |r| >= 1
              && r[0] == Called(DeleteTask(target.value.id))
              && Count(r, IsCall) == 1
    ensures Count(r, IsEmit) == if target.None? || (outcome.Replied? && outcome.reply.success) then 1 else 0
    ensures Emitted(DeleteClosed(target)) in r <==> target.None? || (outcome.Replied? && outcome.reply.success)
    ensures target.Some? && outcome.Replied? && !outcome.reply.success ==>
              Logged(UnsuccessfulLog, Message(outcome.reply.message)) in r
    ensures target.Some? && outcome.Replied? && outcome.reply.success ==>
              r == [Called(DeleteTask(target.value.id)), Emitted(DeleteClosed(target))]
    ensures target.Some? && outcome.Replied? && !outcome.reply.success ==>
              r == [Called(DeleteTask(target.value.id)), Logged(UnsuccessfulLog, Message(outcome.reply.message))]
    ensures target.Some? && outcome.Failed? ==>
              r == [Called(DeleteTask(target.value.id)), Logged(DeleteFailureLog, ErrorObject(outcome.failure))]
  {
    match target
    case None => [Logged(NullTargetLog, NoDetail), Emitted(DeleteClosed(None))]
    case Some(task) =>
      var call := Called(DeleteTask(task.id));
      var effects :=
        match outcome
        case Replied(reply) =>
          if reply.success then [call, Emitted(DeleteClosed(target))]
          else [call, Logged(UnsuccessfulLog, Message(reply.message))]
        case Failed(err) => [call, Logged(DeleteFailureLog, ErrorObject(err))];
      assert effects[..1] == [call];
      effects
  }

  /** Several confirmations in a row, one per outcome: nothing guards against a
      second confirmation while a first one is pending. */
  function DeleteRun(target: Option<Task>, outcomes: seq<Outcome<DeleteReply>>): seq<Effect>
  {
    if outcomes == [] then []
    else DeleteRun(target, outcomes[..|outcomes| - 1]) + DeleteEffects(target, outcomes[|outcomes| - 1])
  }

  /** n successful confirmations make n delete calls and close the dialog n times. */
  lemma {:induction false} RepeatedDeletes(task: Task, outcomes: seq<Outcome<DeleteReply>>)
    requires forall k :: 0 <= k < |outcomes| ==> outcomes[k].Replied? && outcomes[k].reply.success
    ensures Count(DeleteRun(Some(task), outcomes), IsCall) == |outcomes|
    ensures Count(DeleteRun(Some(task), outcomes), IsEmit) == |outcomes|
  {
    if outcomes != [] {
      var front := outcomes[..|outcomes| - 1];
      RepeatedDeletes(task, front);
      var last := DeleteEffects(Some(task), outcomes[|outcomes| - 1]);
      CountAppend(DeleteRun(Some(task), front), last, IsCall);
      CountAppend(DeleteRun(Some(task), front), last, IsEmit);
    }
  }

  class DeleteTaskModalComponent {
    /** Set by the parent; `None` (null) until then. */
    var taskToDelete: Option<Task>
    var trace: seq<Effect>

    constructor()
      ensures taskToDelete == None && trace == []
    {
      taskToDelete := None;
      trace := [];
    }

    /** Confirms; `outcome` is what the delete call would produce. */
    method OnDeleteTask(outcome: Outcome<DeleteReply>)
      modifies this
      ensures trace == old(trace) + DeleteEffects(taskToDelete, outcome)
      ensures taskToDelete == old(taskToDelete)
    {
      if taskToDelete.Some? {
        trace := trace + [Called(DeleteTask(taskToDelete.value.id))];
        match outcome {
          case Replied(reply) =>
            if reply.success {
              trace := trace + [Emitted(DeleteClosed(taskToDelete))];
            } else {
              trace := trace + [Logged(UnsuccessfulLog, Message(reply.message))];
            }
          case Failed(err) =>
            trace := trace + [Logged(DeleteFailureLog, ErrorObject(err))];
        }
      } else {
        trace := trace + [Logged(NullTargetLog, NoDetail), Emitted(DeleteClosed(None))];
      }
    }
  }
}
