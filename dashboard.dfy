/**
 * The `Dashboard` component's state and its handlers. Every store call is an
 * input: the message table the message query runs over (None when the
 * query's `data` is null), the projects query's `data` (None when it is
 * null), the row `.single()` returns after an insert, the `new` row of a
 * realtime payload. Each handler runs to completion as one step.
 */
module DashboardComponent {
  import opened Rows
  import opened Text
  import opened Tags
  import opened MessageStream

  /** The eight state fields, as one value. */
  datatype View = View(
    projects: seq<Project>,
    activeProject: Option<Project>,
    messages: seq<Message>,
    newMessage: string,
    activeTag: string,
    filter: Option<string>,
    showNewProject: bool,
    projectName: string)

  class Dashboard {
    /** `user.id` of the signed-in user the component is rendered for. */
    const userId: string

    var projects: seq<Project>
    var activeProject: Option<Project>
    var messages: seq<Message>
    var newMessage: string
    var activeTag: string
    var filter: Option<string>
    var showNewProject: bool
    var projectName: string

    /** The selected tag is one of the four tag names and the filter one of the four filter choices. */
    ghost predicate Valid()
      reads this
    {
      activeTag in TagNames && IsFilterChoice(filter)
    }

    function Snapshot(): View
      reads this
    {
      View(projects, activeProject, messages, newMessage, activeTag, filter, showNewProject, projectName)
    }

    /** The `useState` initial values. */
    constructor (userId: string)
      ensures Valid() && this.userId == userId
      ensures Snapshot() == View([], None, [], "", "none", None, false, "")
    {
      this.userId := userId;
      projects, activeProject, messages := [], None, [];
      newMessage, activeTag, filter := "", "none", None;
      showNewProject, projectName := false, "";
    }

    /** The realtime INSERT callback: append the row when it belongs to the active project; the filter is not consulted. */
    method OnMessageInserted(row: Message)
      requires Valid()
      modifies this
      ensures Valid()
      ensures Snapshot() == old(Snapshot()).(messages := Receive(old(messages), old(activeProject), row))
    {
      messages := Receive(messages, activeProject, row);
    }

    /** `fetchProjects`: a non-null result replaces the project list; a null one changes nothing. */
    method FetchProjects(data: Option<seq<Project>>)
      requires Valid()
      modifies this
      ensures Valid()
      ensures Snapshot() == if data.Some? then old(Snapshot()).(projects := data.value) else old(Snapshot())
    {
      if data.Some? {
        projects := data.value;
      }
    }

    /**
     * `fetchMessages`, run while a project is active: `table` is the message
     * table in creation order, or None when the query's `data` is null. A
     * result replaces the working set wholesale by the query's rows; a null
     * result leaves every field as it was.
     */
    method FetchMessages(table: Option<seq<Message>>)
      requires Valid() && activeProject.Some?
      modifies this
      ensures Valid()
      ensures table.None? ==> Snapshot() == old(Snapshot())
      ensures table.Some? ==>
        Snapshot() == old(Snapshot()).(messages := Query(table.value, old(activeProject).value.id, old(filter)))
    {
      if table.Some? {
        messages := Query(table.value, activeProject.value.id, filter);
      }
    }

    /**
     * `createProject`: with an empty name nothing is sent and nothing changes
     * (a whitespace-only name is sent). Otherwise the insert carries the name
     * and the user; when it returns a row, that row goes to the front of the
     * list and becomes active, the name is cleared and the form closes.
     */
    method CreateProject(inserted: Option<Project>) returns (request: Option<ProjectInsert>)
      requires Valid()
      modifies this
      ensures Valid()
      ensures request.Some? <==> old(projectName) != ""
      ensures request.Some? ==> request.value == ProjectInsert(old(projectName), userId)
      ensures request.None? || inserted.None? ==> Snapshot() == old(Snapshot())
      ensures request.Some? && inserted.Some? ==>
        Snapshot() == old(Snapshot()).(
          projects := [inserted.value] + old(projects),
          projectName := "",
          showNewProject := false,
          activeProject := Some(inserted.value))
    {
      if projectName == "" {
        return None;
      }
      request := Some(ProjectInsert(projectName, userId));
      if inserted.Some? {
        projects := [inserted.value] + projects;
        projectName := "";
        showNewProject := false;
        activeProject := Some(inserted.value);
      }
    }

    /**
     * `sendMessage`: with a blank input or no active project nothing is sent
     * and nothing changes. Otherwise the untrimmed input is sent with the
     * active project, the user and the selected tag; then, whatever the
     * insert's outcome, the input is cleared and the tag reset to "none".
     * The message list is not touched: the message appears only through
     * the realtime callback.
     */
    method SendMessage() returns (request: Option<MessageInsert>)
      requires Valid()
      modifies this
      ensures Valid()
      ensures request.Some? <==> !IsBlank(old(newMessage)) && old(activeProject).Some?
      ensures request.None? ==> Snapshot() == old(Snapshot())
      ensures request.Some? ==>
        request.value == MessageInsert(old(newMessage), old(activeProject).value.id, userId, old(activeTag))
        && Snapshot() == old(Snapshot()).(newMessage := "", activeTag := "none")
      ensures request.Some? ==> request.value.tag in TagNames
    {
      if IsBlank(newMessage) || activeProject.None? {
        return None;
      }
      request := Some(MessageInsert(newMessage, activeProject.value.id, userId, activeTag));
      newMessage := "";
      activeTag := "none";
    }

    /** A tag button: toggle the selected tag. */
    method PressTag(tag: string)
      requires Valid() && tag in ButtonTags
      modifies this
      ensures Valid()
      ensures Snapshot() == old(Snapshot()).(activeTag := ToggleTag(old(activeTag), tag))
    {
      activeTag := ToggleTag(activeTag, tag);
    }

    /** A filter button: only the filter changes; the messages stay until the next fetch result. */
    method SetFilter(choice: Option<string>)
      requires Valid() && IsFilterChoice(choice)
      modifies this
      ensures Valid()
      ensures Snapshot() == old(Snapshot()).(filter := choice)
    {
      filter := choice;
    }

    /** A project button in the sidebar: that project becomes active. */
    method SelectProject(p: Project)
      requires Valid()
      modifies this
      ensures Valid()
      ensures Snapshot() == old(Snapshot()).(activeProject := Some(p))
    {
      activeProject := Some(p);
    }

    /** The "+" button: the new-project form opens. */
    method OpenNewProject()
      requires Valid()
      modifies this
      ensures Valid()
      ensures Snapshot() == old(Snapshot()).(showNewProject := true)
    {
      showNewProject := true;
    }

    /** The form's "Cancel" button: the form closes and keeps the typed name. */
    method CancelNewProject()
      requires Valid()
      modifies this
      ensures Valid()
      ensures Snapshot() == old(Snapshot()).(showNewProject := false)
    {
      showNewProject := false;
    }

    /** Typing in the project-name input. */
    method EditProjectName(text: string)
      requires Valid()
      modifies this
      ensures Valid()
      ensures Snapshot() == old(Snapshot()).(projectName := text)
    {
      projectName := text;
    }

    /** Typing in the message input. */
    method EditMessage(text: string)
      requires Valid()
      modifies this
      ensures Valid()
      ensures Snapshot() == old(Snapshot()).(newMessage := text)
    {
      newMessage := text;
    }
  }

  /**
   * A session on a fresh dashboard: create the project "Launch", load its
   * (empty) history, type "Ship it", press "Decision", send, and receive the
   * store's copy of the sent message through the realtime callback. The
   * project is active and first in the list, and the last message is the
   * sent one with its tag.
   */
  method LaunchSession(userId: string, launch: Project, messageId: string, createdAt: string)
    returns (d: Dashboard, last: Message)
    requires launch.name == "Launch"
    ensures d.activeProject == Some(launch) && d.projects == [launch]
    ensures d.messages != [] && last == d.messages[|d.messages| - 1]
    ensures last.content == "Ship it" && last.tag == "decision"
    ensures last.projectId == launch.id && last.userId == userId
    ensures d.newMessage == "" && d.activeTag == "none"
  {
    d := new Dashboard(userId);
    d.OpenNewProject();
    d.EditProjectName("Launch");
    var created := d.CreateProject(Some(launch));
    d.FetchMessages(Some([]));
    d.EditMessage("Ship it");
    d.PressTag("decision");
    assert !IsWhitespace("Ship it"[0]);
    var sent := d.SendMessage();
    var stored := Message(messageId, sent.value.projectId, sent.value.userId, sent.value.content, sent.value.tag, createdAt);
    d.OnMessageInserted(stored);
    last := d.messages[|d.messages| - 1];
  }
}
