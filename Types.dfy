/** The records of the application document (src/types/index.ts). */
module Types {

  datatype Option<+T> = None | Some(value: T)

  /** Any string field: identifiers, ISO timestamps, titles, descriptions,
      e-mails and names. Identifiers and timestamps are produced outside
      the model. */
  type Text = string

  datatype User = User(id: Text, email: Text, name: Text)

  datatype Priority = Low | Medium | High

  datatype Status = Pending | Completed

  datatype Task = Task(
    id: Text,
    title: Text,
    description: Text,
    priority: Priority,
    status: Status,
    createdAt: Text,
    completedAt: Option<Text>)

  /** `duration` is in minutes. */
  datatype FocusSession = FocusSession(id: Text, duration: int, completedAt: Text)

  /** The single persisted document. */
  datatype AppData = AppData(user: Option<User>, tasks: seq<Task>, focusSessions: seq<FocusSession>)

  /** What loading yields when nothing has been stored yet. */
  const EmptyData: AppData := AppData(None, [], [])
}
