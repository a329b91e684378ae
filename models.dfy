/** The application's data records (task, user, authentication state) and the
    envelopes in which the remote API answers. */
module Models {
  import opened Wrappers

  /** `createdAt` / `updatedAt`: assigned by the server and never inspected by
      the client, so kept opaque. */
  datatype Timestamp = Timestamp(raw: string)

  /** A task as the server stores it. `status` is a plain string: the client
      only ever compares it with "todo", "in_progress" and "done". */
  datatype Task = Task(
    id: string,
    title: string,
    description: string,
    status: string,
    createdAt: Option<Timestamp>,
    updatedAt: Option<Timestamp>,
    userEmail: string)

  /** The body of a create request; owner and status are optional. */
  datatype CreateTask = CreateTask(
    title: string,
    description: string,
    userEmail: Option<string>,
    status: Option<string>)

  /** The envelope of every single-task reply (create, status change, update). */
  datatype TaskReply = TaskReply(success: bool, data: Task, message: Option<string>)

  /** The envelope of the list-by-owner reply. */
  datatype TaskListReply = TaskListReply(success: bool, data: seq<Task>, message: Option<string>)

  datatype User = User(id: string, email: string, createdAt: Timestamp)

  /** The envelope of the registration reply. */
  datatype CreateUserReply = CreateUserReply(success: bool, data: User, message: Option<string>)

  /** The `data` part of a login reply. */
  datatype Session = Session(user: User, token: string, expiresIn: string)

  /** The login reply; `data` may be missing, which the client checks. */
  datatype LoginReply = LoginReply(success: bool, data: Option<Session>, message: Option<string>)

  /** What the client knows about the signed-in user. */
  datatype AuthState = AuthState(isAuthenticated: bool, user: Option<User>, token: Option<string>)

  /** The state before any sign-in and after a sign-out. */
  const SignedOut := AuthState(false, None, None)
}
