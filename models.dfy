/** The project record, its status, the list kinds, and the project store
    as the components see it. The store's own file (src/state/project-state.ts)
    and the model file (src/models/project.ts) are not part of this model:
    the store appears only as the log of the calls the components make. */
module Models {

  /** `ProjectStatus`: the two values the components use. */
  datatype ProjectStatus = Active | Finished

  /** A project as the components read it; `people` is a number in the
      source and an integer here. */
  datatype Project = Project(
    id: string,
    title: string,
    description: string,
    people: int,
    status: ProjectStatus)

  /** An accepted form entry `[title, description, people]`. `people` keeps
      the text of the people field: the `+people` conversion to a number is
      not modelled. */
  datatype UserInput = UserInput(title: string, description: string, people: string)

  /** The type of a project list, `'active' | 'finished'`. */
  datatype ListType = ActiveList | FinishedList {
    /** The string the source holds: 'active' or 'finished'. */
    function Name(): string {
      if ActiveList? then "active" else "finished"
    }
  }

  /** One call into the project store. */
  datatype StoreCall =
    | Added(title: string, description: string, people: string)
    | Moved(projectId: string, newStatus: ProjectStatus)
    | ListenerAdded(listType: ListType)

  /** The project store (`projectState`), seen only through the calls made
      to it: what it does with them is not modelled. */
  class ProjectStore {
    ghost var calls: seq<StoreCall>

    constructor ()
      ensures calls == []
    {
      calls := [];
    }

    /** `addProject(title, description, people)`. */
    method AddProject(title: string, description: string, people: string)
      modifies this
      ensures calls == old(calls) + [Added(title, description, people)]
    {
      calls := calls + [Added(title, description, people)];
    }

    /** `moveProject(projectId, newStatus)`. */
    method MoveProject(projectId: string, newStatus: ProjectStatus)
      modifies this
      ensures calls == old(calls) + [Moved(projectId, newStatus)]
    {
      calls := calls + [Moved(projectId, newStatus)];
    }

    /** `addListener(listener)`, for the listener of the list of type `listType`. */
    method AddListener(listType: ListType)
      modifies this
      ensures calls == old(calls) + [ListenerAdded(listType)]
    {
      calls := calls + [ListenerAdded(listType)];
    }
  }
}
