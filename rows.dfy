/** The rows the dashboard reads from and writes to the `projects` and `messages` tables. */
module Rows {

  /** A nullable value: `data` of a query result, the active project. */
  datatype Option<T> = None | Some(value: T)

  /** A row of the `projects` table as the dashboard sees it. */
  datatype Project = Project(id: string, name: string, description: string)

  /** A row of the `messages` table; `tag` is the free-form string the table stores. */
  datatype Message = Message(
    id: string,
    projectId: string,
    userId: string,
    content: string,
    tag: string,
    createdAt: string)

  /** The object `createProject` hands to the projects insert. */
  datatype ProjectInsert = ProjectInsert(name: string, createdBy: string)

  /** The object `sendMessage` hands to the messages insert. */
  datatype MessageInsert = MessageInsert(content: string, projectId: string, userId: string, tag: string)
}
