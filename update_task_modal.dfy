/** The edit dialog: a two-field form (title, description) filled from the task
    being edited, merged over that task on submit and sent as an update; the
    dialog then closes with the task as the server returned it. */
module UpdateTaskModal {
  import opened Wrappers
  import opened Models
  import opened Http
  import opened Effects
  import Tasks

  datatype TaskForm = TaskForm(title: string, description: string)

  /** The form as built, and as `reset()` leaves it. */
  const EmptyForm := TaskForm("", "")

  /** The values `ngOnInit` patches into the form. */
  function FormOf(task: Task): TaskForm
  {
    TaskForm(task.title, task.description)
  }

  /** `{...task, ...form.value}`: the task with its title and description taken
      from the form, everything else (id, status, owner, timestamps) kept. */
  function Merge(task: Task, form: TaskForm): (r: Task)
    ensures FormOf(r) == form
    ensures r.(title := task.title, description := task.description) == task
  {
    task.(title := form.title, description := form.description)
  }

  /** Submitting without editing sends the task unchanged. */
  lemma UneditedMergeIsIdentity(task: Task)
    ensures Merge(task, FormOf(task)) == task
  {
  }

  /** The update request goes to the edited task's own id, whatever the form holds. */
  lemma {:induction false} UpdateTargetsOriginalId(api: string, task: Task, form: TaskForm)
    ensures Tasks.Build(api, Tasks.UpdateTaskOp(Merge(task, form))).url == api + "/task/" + task.id
    ensures Tasks.Parse(api, Tasks.Build(api, Tasks.UpdateTaskOp(Merge(task, form)))) == Some(Tasks.UpdateTaskOp(Merge(task, form)))
  {
    Tasks.ParseBuild(api, Tasks.UpdateTaskOp(Merge(task, form)));
  }

  const NullTargetLog := "Form is invalid or taskToUpdate is null"
  const UpdateFailureLog := "Error updating task:"

  /** What one submit does. The form has no validators, so only a missing task
      stops it, with a log and nothing else. Otherwise exactly one update call
      sends the merged task; any reply, successful or not, closes the dialog
      with the reply's task (the server's copy, not the merged one); an error
      is only logged. Each branch's effects are stated in full. */
  function UpdateEffects(target: Option<Task>, form: TaskForm, outcome: Outcome<TaskReply>): (r: seq<Effect>)
    ensures target.None? ==> r == [Logged(NullTargetLog, NoDetail)]
    ensures target.Some? ==>
              && |r| >= 1
              && r[0] == Called(TaskCall(Tasks.UpdateTaskOp(Merge(target.value, form))))
              && Count(r, IsCall) == 1
    ensures Count(r, IsEmit) == if target.Some? && outcome.Replied? then 1 else 0
    ensures forall t :: Emitted(UpdateClosed(t)) in r <==> target.Some? && outcome.Replied? && t == outcome.reply.data
    ensures target.Some? && outcome.Replied? ==>
              r == [Called(TaskCall(Tasks.UpdateTaskOp(Merge(target.value, form)))), Emitted(UpdateClosed(outcome.reply.data))]
    ensures target.Some? && outcome.Failed? ==>
              r == [Called(TaskCall(Tasks.UpdateTaskOp(Merge(target.value, form)))), Logged(UpdateFailureLog, ErrorObject(outcome.failure))]
  {
    match target
    case None => [Logged(NullTargetLog, NoDetail)]
    case Some(task) =>
      var call := Called(TaskCall(Tasks.UpdateTaskOp(Merge(task, form))));
      var effects :=
        match outcome
        case Replied(reply) => [call, Emitted(UpdateClosed(reply.data))]
        case Failed(err) => [call, Logged(UpdateFailureLog, ErrorObject(err))];
      assert effects[..1] == [call];
      effects
  }

  class UpdateTaskModalComponent {
    var form: TaskForm
    /** Set by the parent before `ngOnInit`; `None` is null. */
    var taskToUpdate: Option<Task>
    var trace: seq<Effect>

    constructor()
      ensures form == EmptyForm && taskToUpdate == None && trace == []
    {
      form := EmptyForm;
      taskToUpdate := None;
      trace := [];
    }

    /** Fills the form from the task, when there is one. */
    method NgOnInit()
      modifies this
      ensures form == if taskToUpdate.Some? then FormOf(taskToUpdate.value) else old(form)
      ensures taskToUpdate == old(taskToUpdate) && trace == old(trace)
    {
      if taskToUpdate.Some? {
        form := FormOf(taskToUpdate.value);
      }
    }

    /** Submits the form; `outcome` is what the update call would produce. The
        form is reset exactly when the call gets a reply. */
    method OnUpdateTask(outcome: Outcome<TaskReply>)
      modifies this
      ensures trace == old(trace) + UpdateEffects(taskToUpdate, old(form), outcome)
      ensures form == if taskToUpdate.Some? && outcome.Replied? then EmptyForm else old(form)
      ensures taskToUpdate == old(taskToUpdate)
    {
      if taskToUpdate.Some? {
        var updated := Merge(taskToUpdate.value, form);
        trace := trace + [Called(TaskCall(Tasks.UpdateTaskOp(updated)))];
        match outcome {
          case Replied(reply) =>
            form := EmptyForm;
            trace := trace + [Emitted(UpdateClosed(reply.data))];
          case Failed(err) =>
            trace := trace + [Logged(UpdateFailureLog, ErrorObject(err))];
        }
      } else {
        trace := trace + [Logged(NullTargetLog, NoDetail)];
      }
    }
  }
}
