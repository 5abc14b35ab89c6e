/** The client-side task store: the fetched task lists, the tasks of the selected list, the
    selection itself and a loading flag, with the local effect of each store action. Every
    answer of the remote database is a parameter of the action that awaits it. */
module TaskStore {
  import opened Wrappers
  import opened Seqs

  datatype TaskList = TaskList(id: string, name: string, createdAt: string, updatedAt: string)

  datatype Task = Task(
    id: string,
    listId: string,
    title: string,
    completed: bool,
    dueDate: Option<string>,
    createdAt: string,
    updatedAt: string)

  /** The fields an update may set; `None` means the field is not part of the update.
      `dueDate` may be set to a date or cleared, hence the nested option. */
  datatype TaskPatch = TaskPatch(
    title: Option<string>,
    completed: Option<bool>,
    dueDate: Option<Option<string>>,
    updatedAt: Option<string>)

  /** What an awaited query yields: rows (possibly none), or nothing usable (an error, or null data). */
  datatype Outcome<T> = Success(data: T) | Failure

  /** Truthiness of a nullable id: null and the empty string are falsy. */
  predicate Truthy(id: Option<string>)
  {
    id.Some? && id.value != ""
  }

  // ---------------------------------------------------------------------------
  // The list transformations the actions perform

  function ListHasOtherId(id: string): TaskList -> bool
  {
    (l: TaskList) => l.id != id
  }

  function TaskHasOtherId(id: string): Task -> bool
  {
    (t: Task) => t.id != id
  }

  /** The lists left after deleting `id` locally. */
  function OtherLists(lists: seq<TaskList>, id: string): seq<TaskList>
  {
    Filter(lists, ListHasOtherId(id))
  }

  /** The tasks left after deleting `id` locally. */
  function OtherTasks(tasks: seq<Task>, id: string): seq<Task>
  {
    Filter(tasks, TaskHasOtherId(id))
  }

  /** A task with the fields of `patch` spread over it. */
  function Patched(t: Task, patch: TaskPatch): Task
  {
    t.(title := patch.title.GetOr(t.title),
       completed := patch.completed.GetOr(t.completed),
       dueDate := patch.dueDate.GetOr(t.dueDate),
       updatedAt := patch.updatedAt.GetOr(t.updatedAt))
  }

  function PatchIfId(id: string, patch: TaskPatch): Task -> Task
  {
    (t: Task) => if t.id == id then Patched(t, patch) else t
  }

  /** The tasks after a local update of `id`. */
  function UpdatedTasks(tasks: seq<Task>, id: string, patch: TaskPatch): seq<Task>
  {
    Map(tasks, PatchIfId(id, patch))
  }

  function SetCompletedIfId(id: string, completed: bool): Task -> Task
  {
    (t: Task) => if t.id == id then t.(completed := completed) else t
  }

  /** The tasks after a local toggle of `id`. */
  function ToggledTasks(tasks: seq<Task>, id: string, completed: bool): seq<Task>
  {
    Map(tasks, SetCompletedIfId(id, completed))
  }

  /** The selection after deleting the selected list: the first remaining list, or none. */
  function FirstListId(lists: seq<TaskList>): Option<string>
  {
    if lists == [] then None else Some(lists[0].id)
  }

  // ---------------------------------------------------------------------------
  // Properties of the transformations

  /** Deleting a list drops exactly the lists with that id and keeps the rest in order. */
  lemma OtherListsExact(lists: seq<TaskList>, id: string)
    ensures forall l :: l in OtherLists(lists, id) <==> l in lists && l.id != id
    ensures IsSubsequence(OtherLists(lists, id), lists)
    ensures (forall l :: l in lists ==> l.id != id) <==> OtherLists(lists, id) == lists
    ensures OtherLists(OtherLists(lists, id), id) == OtherLists(lists, id)
  {
    FilterIsSubsequence(lists, ListHasOtherId(id));
    FilterKeepsAll(lists, ListHasOtherId(id));
    FilterIdempotent(lists, ListHasOtherId(id));
  }

  /** Deleting a task drops exactly the tasks with that id and keeps the rest in order. */
  lemma OtherTasksExact(tasks: seq<Task>, id: string)
    ensures forall t :: t in OtherTasks(tasks, id) <==> t in tasks && t.id != id
    ensures IsSubsequence(OtherTasks(tasks, id), tasks)
    ensures (forall t :: t in tasks ==> t.id != id) <==> OtherTasks(tasks, id) == tasks
    ensures OtherTasks(OtherTasks(tasks, id), id) == OtherTasks(tasks, id)
  {
    FilterIsSubsequence(tasks, TaskHasOtherId(id));
    FilterKeepsAll(tasks, TaskHasOtherId(id));
    FilterIdempotent(tasks, TaskHasOtherId(id));
  }

  /** A patch never touches the id, the owning list or the creation time; every field it carries
      is taken, every field it leaves out is kept. */
  lemma PatchedFields(t: Task, patch: TaskPatch)
    ensures Patched(t, patch).id == t.id
    ensures Patched(t, patch).listId == t.listId
    ensures Patched(t, patch).createdAt == t.createdAt
    ensures patch.title.Some? ==> Patched(t, patch).title == patch.title.value
    ensures patch.title.None? ==> Patched(t, patch).title == t.title
    ensures patch.completed.Some? ==> Patched(t, patch).completed == patch.completed.value
    ensures patch.completed.None? ==> Patched(t, patch).completed == t.completed
    ensures patch.dueDate.Some? ==> Patched(t, patch).dueDate == patch.dueDate.value
    ensures patch.dueDate.None? ==> Patched(t, patch).dueDate == t.dueDate
    ensures patch.updatedAt.Some? ==> Patched(t, patch).updatedAt == patch.updatedAt.value
    ensures patch.updatedAt.None? ==> Patched(t, patch).updatedAt == t.updatedAt
    ensures Patched(Patched(t, patch), patch) == Patched(t, patch)
  {
  }

  /** A local update keeps the tasks and their order: the tasks with the id are patched, all
      others are unchanged. */
  lemma UpdatedTasksPointwise(tasks: seq<Task>, id: string, patch: TaskPatch)
    ensures |UpdatedTasks(tasks, id, patch)| == |tasks|
    ensures forall i :: 0 <= i < |tasks| ==>
      UpdatedTasks(tasks, id, patch)[i] == (if tasks[i].id == id then Patched(tasks[i], patch) else tasks[i])
    ensures forall i :: 0 <= i < |tasks| ==>
      UpdatedTasks(tasks, id, patch)[i].id == tasks[i].id &&
      UpdatedTasks(tasks, id, patch)[i].listId == tasks[i].listId &&
      UpdatedTasks(tasks, id, patch)[i].createdAt == tasks[i].createdAt
  {
  }

  /** Updating with a patch that carries no field changes nothing, and so does updating an id no
      task has. */
  lemma UpdatedTasksNoop(tasks: seq<Task>, id: string, patch: TaskPatch)
    requires patch == TaskPatch(None, None, None, None) || forall t :: t in tasks ==> t.id != id
    ensures UpdatedTasks(tasks, id, patch) == tasks
  {
  }

  /** Applying the same update twice is the same as applying it once. */
  lemma UpdatedTasksIdempotent(tasks: seq<Task>, id: string, patch: TaskPatch)
    ensures UpdatedTasks(UpdatedTasks(tasks, id, patch), id, patch) == UpdatedTasks(tasks, id, patch)
  {
  }

  /** A toggle is the update that carries only the completion flag. */
  lemma ToggleIsUpdate(tasks: seq<Task>, id: string, completed: bool)
    ensures ToggledTasks(tasks, id, completed) == UpdatedTasks(tasks, id, TaskPatch(None, Some(completed), None, None))
  {
  }

  /** Of two toggles of the same task the later one wins; toggling back to the flag every such
      task already had restores the list. */
  lemma ToggleLastWins(tasks: seq<Task>, id: string, first: bool, second: bool)
    ensures ToggledTasks(ToggledTasks(tasks, id, first), id, second) == ToggledTasks(tasks, id, second)
    ensures (forall t :: t in tasks && t.id == id ==> t.completed == second) ==>
      ToggledTasks(ToggledTasks(tasks, id, first), id, second) == tasks
  {
  }

  /** After the selected list is deleted, the new selection names a remaining list, never the
      deleted one, and is empty exactly when no list remains. */
  lemma NextSelectionRemains(lists: seq<TaskList>, id: string)
    ensures FirstListId(OtherLists(lists, id)).Some? ==>
      FirstListId(OtherLists(lists, id)).value != id &&
      exists l :: l in lists && l.id == FirstListId(OtherLists(lists, id)).value
    ensures FirstListId(OtherLists(lists, id)).None? <==> forall l :: l in lists ==> l.id == id
  {
    var rest := OtherLists(lists, id);
    OtherListsExact(lists, id);
    if rest != [] {
      assert rest[0] in rest;
    } else {
      FilterDropsAll(lists, ListHasOtherId(id));
    }
  }

  // ---------------------------------------------------------------------------
  // The store

  class Store {
    var taskLists: seq<TaskList>
    var tasks: seq<Task>
    var selectedListId: Option<string>
    var isLoading: bool

    /** The initial state: nothing fetched, nothing selected, not loading. */
    constructor ()
      ensures taskLists == [] && tasks == [] && selectedListId == None && !isLoading
    {
      taskLists := [];
      tasks := [];
      selectedListId := None;
      isLoading := false;
    }

    /** Loads the tasks of `listId`; `response` is what the query answered. A failed query keeps
        the old tasks. */
    method FetchTasks(listId: string, response: Outcome<seq<Task>>)
      modifies this`tasks, this`isLoading
      ensures tasks == (if response.Success? then response.data else old(tasks))
      ensures !isLoading
    {
      isLoading := true;
      if response.Success? {
        tasks := response.data;
      }
      isLoading := false;
    }

    /** Loads the lists; when lists came back and nothing truthy is selected, the first list is
        selected and its tasks are loaded (`tasksResponse` is that nested query's answer). */
    method FetchTaskLists(response: Outcome<seq<TaskList>>, tasksResponse: Outcome<seq<Task>>)
      modifies this
      ensures taskLists == (if response.Success? then response.data else old(taskLists))
      ensures !isLoading
      ensures response.Success? && response.data != [] && !Truthy(old(selectedListId)) ==>
        selectedListId == Some(response.data[0].id) &&
        tasks == (if tasksResponse.Success? then tasksResponse.data else old(tasks))
      ensures !(response.Success? && response.data != [] && !Truthy(old(selectedListId))) ==>
        selectedListId == old(selectedListId) && tasks == old(tasks)
    {
      isLoading := true;
      if response.Success? {
        taskLists := response.data;
        isLoading := false;
        if |response.data| > 0 && !Truthy(selectedListId) {
          selectedListId := Some(response.data[0].id);
          FetchTasks(response.data[0].id, tasksResponse);
        }
      } else {
        isLoading := false;
      }
    }

    /** Appends the list the insert returned; a failed insert changes nothing. */
    method AddTaskList(name: string, response: Outcome<TaskList>)
      modifies this`taskLists
      ensures taskLists == (if response.Success? then old(taskLists) + [response.data] else old(taskLists))
    {
      if response.Success? {
        taskLists := taskLists + [response.data];
      }
    }

    /** Deletes a list locally whatever the remote delete answered. When it was selected, the
        first remaining list is selected, the tasks are cleared and, for a truthy new selection,
        loaded (`tasksResponse` is that query's answer). */
    method DeleteTaskList(id: string, tasksResponse: Outcome<seq<Task>>)
      modifies this
      ensures taskLists == OtherLists(old(taskLists), id)
      ensures old(selectedListId) != Some(id) ==>
        selectedListId == old(selectedListId) && tasks == old(tasks) && isLoading == old(isLoading)
      ensures old(selectedListId) == Some(id) ==>
        selectedListId == FirstListId(taskLists) &&
        tasks == (if Truthy(selectedListId) && tasksResponse.Success? then tasksResponse.data else [])
      ensures old(selectedListId) == Some(id) && Truthy(selectedListId) ==> !isLoading
      ensures old(selectedListId) == Some(id) && !Truthy(selectedListId) ==> isLoading == old(isLoading)
    {
      var newLists := OtherLists(taskLists, id);
      taskLists := newLists;
      if selectedListId == Some(id) {
        var newSelectedId := FirstListId(newLists);
        selectedListId := newSelectedId;
        tasks := [];
        if Truthy(newSelectedId) {
          FetchTasks(newSelectedId.value, tasksResponse);
        }
      }
    }

    /** Appends the task the insert returned; a failed insert changes nothing. */
    method AddTask(listId: string, title: string, response: Outcome<Task>)
      modifies this`tasks
      ensures tasks == (if response.Success? then old(tasks) + [response.data] else old(tasks))
    {
      if response.Success? {
        tasks := tasks + [response.data];
      }
    }

    /** Patches the tasks with `id` locally, whatever the remote update answered. */
    method UpdateTask(id: string, updates: TaskPatch)
      modifies this`tasks
      ensures tasks == UpdatedTasks(old(tasks), id, updates)
    {
      tasks := UpdatedTasks(tasks, id, updates);
    }

    /** Sets the completion flag of the tasks with `id` locally, whatever the remote update answered. */
    method ToggleTask(id: string, completed: bool)
      modifies this`tasks
      ensures tasks == ToggledTasks(old(tasks), id, completed)
    {
      tasks := ToggledTasks(tasks, id, completed);
    }

    /** Drops the tasks with `id` locally, whatever the remote delete answered. */
    method DeleteTask(id: string)
      modifies this`tasks
      ensures tasks == OtherTasks(old(tasks), id)
    {
      tasks := OtherTasks(tasks, id);
    }

    /** Selects `id` (or nothing) and, for a truthy id, loads its tasks. */
    method SetSelectedListId(id: Option<string>, tasksResponse: Outcome<seq<Task>>)
      modifies this`selectedListId, this`tasks, this`isLoading
      ensures selectedListId == id
      ensures Truthy(id) ==> tasks == (if tasksResponse.Success? then tasksResponse.data else old(tasks)) && !isLoading
      ensures !Truthy(id) ==> tasks == old(tasks) && isLoading == old(isLoading)
    {
      selectedListId := id;
      if Truthy(id) {
        FetchTasks(id.value, tasksResponse);
      }
    }
  }
}
