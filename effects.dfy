/** What the components do besides changing their own fields: calls to the
    remote API, events emitted to the parent view, console logs, sign-outs and
    navigations. A component's history is the sequence of these effects. */
module Effects {
  import opened Wrappers
  import opened Models
  import opened Http
  import Tasks

  datatype GatewayCall =
    | TaskCall(op: Tasks.TaskOperation)
    /** Deleting a task: its request is not part of the task service. */
    | DeleteTask(id: string)

  datatype Event =
    | StatusChanged(id: string, status: string)
    | UpdateClosed(updated: Task)
    | DeleteClosed(deleted: Option<Task>)

  /** The second argument of a `console.error` call. */
  datatype LogDetail = NoDetail | Message(text: Option<string>) | ErrorObject(error: HttpError)

  datatype Effect =
    | Called(call: GatewayCall)
    | Emitted(event: Event)
    | Logged(tag: string, detail: LogDetail)
    | LoggedOut
    | Navigated(commands: seq<string>, returnUrl: Option<string>)

  predicate IsCall(e: Effect) { e.Called? }

  predicate IsEmit(e: Effect) { e.Emitted? }

  /** How many effects of a history satisfy `p`. */
  function Count(effects: seq<Effect>, p: Effect -> bool): (n: nat)
    ensures n <= |effects|
    ensures n == 0 <==> forall k :: 0 <= k < |effects| ==> !p(effects[k])
  {
    if effects == [] then 0
    else (if p(effects[|effects| - 1]) then 1 else 0) + Count(effects[..|effects| - 1], p)
  }

  lemma {:induction false} CountAppend(a: seq<Effect>, b: seq<Effect>, p: Effect -> bool)
    ensures Count(a + b, p) == Count(a, p) + Count(b, p)
  {
    if b != [] {
      assert (a + b)[..|a + b| - 1] == a + b[..|b| - 1];
      assert (a + b)[|a + b| - 1] == b[|b| - 1];
      CountAppend(a, b[..|b| - 1], p);
    } else {
      assert a + b == a;
    }
  }
}
