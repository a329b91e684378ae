/** One task card: a status menu that opens and closes, and a status picker
    that asks the server to move the task and adopts the status the server
    answers with. */
module TaskCard {
  import opened Wrappers
  import opened Models
  import opened Http
  import opened Effects
  import opened TaskList
  import Tasks

  /** Which status endpoint a picked status calls; the picker knows only the
      three statuses. */
  function EndpointFor(status: string): (r: Option<Tasks.StatusEndpoint>)
    ensures r.Some? <==> IsKnownStatus(status)
    ensures r == Some(Tasks.MoveBackToTodo) <==> status == Todo
    ensures r == Some(Tasks.MoveToInProgress) <==> status == InProgress
    ensures r == Some(Tasks.MarkAsDone) <==> status == Done
  {
    if status == Todo then Some(Tasks.MoveBackToTodo)
    else if status == InProgress then Some(Tasks.MoveToInProgress)
    else if status == Done then Some(Tasks.MarkAsDone)
    else None
  }

  /** The text logged when a status call fails. */
  function FailureLog(e: Tasks.StatusEndpoint): string
  {
    match e
    case MoveBackToTodo => "Error moving task back to todo:"
    case MoveToInProgress => "Error moving task to in progress:"
    case MarkAsDone => "Error marking task as done:"
  }

  /** The card's task and the effects of one pick, as a value. */
  datatype Step = Step(task: Task, effects: seq<Effect>)

  predicate Succeeded(outcome: Outcome<TaskReply>)
  {
    outcome.Replied? && outcome.reply.success
  }

  /** Picking `status` when the call would produce `outcome`. An unknown status
      (also the empty string) does nothing at all; a known one makes exactly
      one call, for the card's task id, to the endpoint of that status. Only a
      successful reply changes the task, and then only its status, which
      becomes the status the server sent back (not the one picked); exactly
      then one `statusChanged` event carries the id and that status. A failed
      call is only logged. */
  function StatusChange(task: Task, status: string, outcome: Outcome<TaskReply>): (r: Step)
    ensures !IsKnownStatus(status) ==> r.task == task && r.effects == []
    ensures IsKnownStatus(status) ==>
              && |r.effects| >= 1
              && r.effects[0] == Called(TaskCall(Tasks.ChangeStatus(task.id, EndpointFor(status).value)))
              && Count(r.effects, IsCall) == 1
    ensures r.task.(status := task.status) == task
    ensures r.task != task ==> IsKnownStatus(status) && Succeeded(outcome)
    ensures IsKnownStatus(status) && Succeeded(outcome) ==>
              && r.task.status == outcome.reply.data.status
              && Emitted(StatusChanged(task.id, outcome.reply.data.status)) in r.effects
    ensures Count(r.effects, IsEmit) == if IsKnownStatus(status) && Succeeded(outcome) then 1 else 0
    ensures (exists k :: 0 <= k < |r.effects| && r.effects[k].Logged?) <==> IsKnownStatus(status) && outcome.Failed?
    ensures IsKnownStatus(status) && Succeeded(outcome) ==>
              r.effects == [Called(TaskCall(Tasks.ChangeStatus(task.id, EndpointFor(status).value))),
                            Emitted(StatusChanged(task.id, outcome.reply.data.status))]
    ensures IsKnownStatus(status) && outcome.Replied? && !outcome.reply.success ==>
              r.effects == [Called(TaskCall(Tasks.ChangeStatus(task.id, EndpointFor(status).value)))]
    ensures IsKnownStatus(status) && outcome.Failed? ==>
              r.effects == [Called(TaskCall(Tasks.ChangeStatus(task.id, EndpointFor(status).value))),
                            Logged(FailureLog(EndpointFor(status).value), ErrorObject(outcome.failure))]
  {
    match EndpointFor(status)
    case None => Step(task, [])
    case Some(e) =>
      var call := Called(TaskCall(Tasks.ChangeStatus(task.id, e)));
      match outcome
      case Replied(reply) =>
        if reply.success then
          var effects := [call, Emitted(StatusChanged(task.id, reply.data.status))];
          assert effects[..1] == [call];
          Step(task.(status := reply.data.status), effects)
        else Step(task, [call])
      case Failed(err) =>
        var effects := [call, Logged(FailureLog(e), ErrorObject(err))];
        assert effects[..1] == [call];
        Step(task, effects)
  }

  class TaskCardComponent {
    /** The task shown; the parent passes it in. */
    var task: Task
    var showStatusMenu: bool
    /** Everything the card has done so far. */
    var trace: seq<Effect>

    constructor(task: Task)
      ensures this.task == task && !showStatusMenu && trace == []
    {
      this.task := task;
      showStatusMenu := false;
      trace := [];
    }

    method ToggleStatusMenu()
      modifies this
      ensures showStatusMenu == !old(showStatusMenu)
      ensures task == old(task) && trace == old(trace)
    {
      showStatusMenu := !showStatusMenu;
    }

    /** Picks a status; `outcome` is what the status call would produce. Whatever
        happens, the menu ends up closed. */
    method SelectStatus(status: string, outcome: Outcome<TaskReply>)
      modifies this
      ensures !showStatusMenu
      ensures task == StatusChange(old(task), status, outcome).task
      ensures trace == old(trace) + StatusChange(old(task), status, outcome).effects
    {
      var endpoint := EndpointFor(status);
      if endpoint.Some? {
        trace := trace + [Called(TaskCall(Tasks.ChangeStatus(task.id, endpoint.value)))];
        match outcome {
          case Replied(reply) =>
            if reply.success {
              task := task.(status := reply.data.status);
              trace := trace + [Emitted(StatusChanged(task.id, reply.data.status))];
            }
          case Failed(err) =>
            trace := trace + [Logged(FailureLog(endpoint.value), ErrorObject(err))];
        }
      }
      showStatusMenu := false;
    }
  }

  /** Opening and closing the menu again leaves it as it was. */
  method ToggleTwiceRestores(card: TaskCardComponent)
    modifies card
    ensures card.showStatusMenu == old(card.showStatusMenu)
    ensures card.task == old(card.task) && card.trace == old(card.trace)
  {
    card.ToggleStatusMenu();
    card.ToggleStatusMenu();
  }
}
