/** The project list of src/components/project-list.ts: the status filter
    behind each list, the drop-target rules and the rendering of the cards. */
module ProjectListView {
  import opened Text
  import opened Models
  import opened DragData
  import opened ProjectItemView

  /** The status a list of type `t` shows, and requests when a card is
      dropped on it. */
  function StatusFor(t: ListType): (s: ProjectStatus)
    ensures s == Active <==> t.Name() == "active"
  {
    if t == ActiveList then Active else Finished
  }

  /** `projectsFilter`, the predicate the listener filters with. */
  predicate Matches(t: ListType, p: Project) {
    if t == ActiveList then p.status == Active else p.status == Finished
  }

  /** `projects.filter(projectsFilter)`; `FilterIndices` states what it
      keeps. */
  function Filter(projects: seq<Project>, t: ListType): seq<Project> {
    if projects == [] then []
    else (if Matches(t, projects[0]) then [projects[0]] else []) + Filter(projects[1..], t)
  }

  /** Every project the filter keeps has the list's status. */
  lemma {:induction false} FilterKeepsStatus(projects: seq<Project>, t: ListType)
    ensures forall p | p in Filter(projects, t) :: p.status == StatusFor(t)
  {
    if projects != [] {
      FilterKeepsStatus(projects[1..], t);
    }
  }

  /** The positions, counted from `offset`, of the projects the filter keeps. */
  function Positions(projects: seq<Project>, t: ListType, offset: nat): seq<nat> {
    if projects == [] then []
    else (if Matches(t, projects[0]) then [offset] else []) + Positions(projects[1..], t, offset + 1)
  }

  /** There are as many positions as kept projects. */
  lemma {:induction false} PositionsLength(projects: seq<Project>, t: ListType, offset: nat)
    ensures |Positions(projects, t, offset)| == |Filter(projects, t)|
  {
    if projects != [] {
      PositionsLength(projects[1..], t, offset + 1);
    }
  }

  /** The k-th kept project is the one at the k-th position. */
  lemma {:induction false} PositionsLocate(projects: seq<Project>, t: ListType, offset: nat)
    ensures |Positions(projects, t, offset)| == |Filter(projects, t)|
    ensures forall k | 0 <= k < |Filter(projects, t)| ::
              && offset <= Positions(projects, t, offset)[k] < offset + |projects|
              && Filter(projects, t)[k] == projects[Positions(projects, t, offset)[k] - offset]
  {
    PositionsLength(projects, t, offset);
    forall k | 0 <= k < |Filter(projects, t)|
      ensures && offset <= Positions(projects, t, offset)[k] < offset + |projects|
              && Filter(projects, t)[k] == projects[Positions(projects, t, offset)[k] - offset]
    {
      PositionAt(projects, t, offset, k);
    }
  }

  /** `PositionsLocate` for one index. */
  lemma {:induction false} PositionAt(projects: seq<Project>, t: ListType, offset: nat, k: nat)
    requires k < |Filter(projects, t)|
    ensures k < |Positions(projects, t, offset)|
    ensures offset <= Positions(projects, t, offset)[k] < offset + |projects|
    ensures Filter(projects, t)[k] == projects[Positions(projects, t, offset)[k] - offset]
  {
    PositionsLength(projects, t, offset);
    var head, tail := projects[0], projects[1..];
    var pos, r := Positions(projects, t, offset), Filter(projects, t);
    if Matches(t, head) {
      assert pos == [offset] + Positions(tail, t, offset + 1);
      assert r == [head] + Filter(tail, t);
      if k > 0 {
        PositionAt(tail, t, offset + 1, k - 1);
        assert tail[pos[k] - (offset + 1)] == projects[pos[k] - offset];
      }
    } else {
      assert pos == Positions(tail, t, offset + 1);
      assert r == Filter(tail, t);
      PositionAt(tail, t, offset + 1, k);
      assert tail[pos[k] - (offset + 1)] == projects[pos[k] - offset];
    }
  }

  /** The positions strictly increase, and lie in the range of `projects`. */
  lemma {:induction false} PositionsIncrease(projects: seq<Project>, t: ListType, offset: nat)
    ensures forall i | i in Positions(projects, t, offset) :: offset <= i < offset + |projects|
    ensures forall k, l | 0 <= k < l < |Positions(projects, t, offset)| ::
              Positions(projects, t, offset)[k] < Positions(projects, t, offset)[l]
  {
    if projects != [] {
      PositionsIncrease(projects[1..], t, offset + 1);
      var pos, rest := Positions(projects, t, offset), Positions(projects[1..], t, offset + 1);
      if Matches(t, projects[0]) {
        assert pos == [offset] + rest;
        assert forall l | 1 <= l < |pos| :: pos[l] == rest[l - 1] && rest[l - 1] in rest;
      }
    }
  }

  /** A position is listed exactly when the project there has the list's status. */
  lemma {:induction false} PositionsExact(projects: seq<Project>, t: ListType, offset: nat)
    ensures forall i | 0 <= i < |projects| ::
              offset + i in Positions(projects, t, offset) <==> projects[i].status == StatusFor(t)
  {
    if projects != [] {
      var tail := projects[1..];
      PositionsExact(tail, t, offset + 1);
      PositionsIncrease(tail, t, offset + 1);
      var pos, rest := Positions(projects, t, offset), Positions(tail, t, offset + 1);
      assert pos == (if Matches(t, projects[0]) then [offset] else []) + rest;
      forall i | 1 <= i < |projects|
        ensures offset + i in pos <==> projects[i].status == StatusFor(t)
      {
        assert projects[i] == tail[i - 1];
        assert offset + 1 + (i - 1) == offset + i;
      }
    }
  }

  /** The filter is a stable subsequence: its elements sit at strictly
      increasing positions of `projects`, and those positions are exactly
      the positions of the projects with the list's status. */
  lemma FilterIndices(projects: seq<Project>, t: ListType) returns (idx: seq<nat>)
    ensures |idx| == |Filter(projects, t)|
    ensures forall k | 0 <= k < |idx| :: idx[k] < |projects| && Filter(projects, t)[k] == projects[idx[k]]
    ensures forall k, l | 0 <= k < l < |idx| :: idx[k] < idx[l]
    ensures forall i | 0 <= i < |projects| :: i in idx <==> projects[i].status == StatusFor(t)
  {
    idx := Positions(projects, t, 0);
    PositionsLocate(projects, t, 0);
    PositionsIncrease(projects, t, 0);
    PositionsExact(projects, t, 0);
  }

  /** The 'active' and 'finished' lists split every project sequence:
      together they hold each project as often as `projects` does. */
  lemma {:induction false} FiltersPartition(projects: seq<Project>)
    ensures multiset(Filter(projects, ActiveList)) + multiset(Filter(projects, FinishedList)) == multiset(projects)
  {
    if projects != [] {
      var head, tail := projects[0], projects[1..];
      FiltersPartition(tail);
      assert multiset(projects) == multiset{head} + multiset(tail) by {
        assert projects == [head] + tail;
      }
      if head.status == Active {
        assert Filter(projects, ActiveList) == [head] + Filter(tail, ActiveList);
        assert Filter(projects, FinishedList) == Filter(tail, FinishedList);
      } else {
        assert Filter(projects, ActiveList) == Filter(tail, ActiveList);
        assert Filter(projects, FinishedList) == [head] + Filter(tail, FinishedList);
      }
    }
  }

  /** No project is kept by both the 'active' and the 'finished' filter. */
  lemma FiltersDisjoint(projects: seq<Project>)
    ensures forall p | p in Filter(projects, ActiveList) :: p !in Filter(projects, FinishedList)
  {
    FilterKeepsStatus(projects, ActiveList);
    FilterKeepsStatus(projects, FinishedList);
  }

  /** The id the list element gets: `${type}-projects-list`. */
  function ListId(t: ListType): string {
    t.Name() + "-projects-list"
  }

  /** The heading: `${type.toUpperCase()} PROJECTS`. */
  function Heading(t: ListType): string {
    Upper(t.Name()) + " PROJECTS"
  }

  /** The two lists' element ids, spelled out. */
  lemma ListIdsSpelled()
    ensures ListId(ActiveList) == "active-projects-list"
    ensures ListId(FinishedList) == "finished-projects-list"
  {
  }

  /** The two lists' headings, spelled out. */
  lemma HeadingsSpelled()
    ensures Heading(ActiveList) == "ACTIVE PROJECTS"
    ensures Heading(FinishedList) == "FINISHED PROJECTS"
  {
    assert Upper("active") == "ACTIVE";
    assert Upper("finished") == "FINISHED";
  }

  /** `isPlainText`: a payload is present and its first format is exactly
      "text/plain"; an empty payload never passes. */
  function IsPlainText(dataTransfer: DataTransfer?): (b: bool)
    reads dataTransfer
    ensures b ==> dataTransfer != null && PlainText in dataTransfer.types
    ensures dataTransfer != null && dataTransfer.types == [] ==> !b
  {
    dataTransfer != null && |dataTransfer.types| > 0 && dataTransfer.types[0] == PlainText
  }

  /** The class list after `switchElementStyles(enable)`: "droppable" is
      present exactly when asked for, and no other class changes. */
  function SwitchedStyles(classes: set<string>, enable: bool): (r: set<string>)
    ensures "droppable" in r <==> enable
    ensures forall c | c != "droppable" :: c in r <==> c in classes
  {
    if enable then classes + {"droppable"} else classes - {"droppable"}
  }

  /** Switching twice is switching once. */
  lemma SwitchedStylesIdempotent(classes: set<string>, enable: bool)
    ensures SwitchedStyles(SwitchedStyles(classes, enable), enable) == SwitchedStyles(classes, enable)
  {
  }

  function Ids(projects: seq<Project>): (r: seq<string>)
    ensures |r| == |projects| && forall i | 0 <= i < |projects| :: r[i] == projects[i].id
  {
    if projects == [] then [] else [projects[0].id] + Ids(projects[1..])
  }

  class ProjectList {
    const listType: ListType
    const store: ProjectStore
    var assignedProjects: seq<Project>
    /** The class list of the list element. */
    var classes: set<string>
    /** The id of the list element. */
    var listId: string
    /** The text of the heading element. */
    var heading: string
    /** The cards under the list element, in order. */
    var items: seq<ProjectItem>

    /** The cards show exactly `assignedProjects`, in order, attached under
        this list, each rendered. */
    ghost predicate ShowsAssigned()
      reads this, items
    {
      && |items| == |assignedProjects|
      && forall k | 0 <= k < |items| ::
           && items[k].project == assignedProjects[k]
           && items[k].hostId == listId
           && items[k].Rendered()
    }

    /** The ids of the rendered cards, in order. */
    function ItemIds(): seq<string>
      reads this
    {
      seq(|items|, k requires 0 <= k < |items| reads this => items[k].project.id)
    }

    /** Registers the store listener and renders the list's id and heading. */
    constructor (listType: ListType, store: ProjectStore)
      modifies store
      ensures this.listType == listType && this.store == store
      ensures assignedProjects == [] && items == [] && classes == {}
      ensures listId == ListId(listType) && heading == Heading(listType)
      ensures store.calls == old(store.calls) + [ListenerAdded(listType)]
    {
      this.listType := listType;
      this.store := store;
      assignedProjects, classes, listId, heading, items := [], {}, "", "", [];
      new;
      Configure();
      RenderContent();
    }

    /** `configure`: subscribes this list to the store. */
    method Configure()
      modifies store
      ensures store.calls == old(store.calls) + [ListenerAdded(listType)]
    {
      store.AddListener(listType);
    }

    /** The listener registered with the store: keeps the projects of this
        list's status, then renders them. */
    method OnProjectsChanged(projects: seq<Project>)
      modifies this`assignedProjects, this`items
      ensures assignedProjects == Filter(projects, listType)
      ensures forall p | p in assignedProjects :: p.status == StatusFor(listType)
      ensures ShowsAssigned() && forall k | 0 <= k < |items| :: fresh(items[k])
      ensures ItemIds() == Ids(assignedProjects)
    {
      assignedProjects := Filter(projects, listType);
      FilterKeepsStatus(projects, listType);
      RenderProjects();
    }

    /** `renderContent`: the list element's id and the heading text. */
    method RenderContent()
      modifies this`listId, this`heading
      ensures listId == ListId(listType) && heading == Heading(listType)
    {
      listId := ListId(listType);
      heading := Heading(listType);
    }

    /** `renderProjects`: drops every card, then appends one new card per
        assigned project. */
    method RenderProjects()
      modifies this`items
      ensures ShowsAssigned() && forall k | 0 <= k < |items| :: fresh(items[k])
      ensures ItemIds() == Ids(assignedProjects)
    {
      items := [];
      var i := 0;
      while i < |assignedProjects|
        invariant 0 <= i <= |assignedProjects| && |items| == i
        invariant forall k | 0 <= k < i ::
                    && items[k].project == assignedProjects[k]
                    && items[k].hostId == listId
                    && items[k].Rendered()
                    && fresh(items[k])
      {
        var item := new ProjectItem(listId, assignedProjects[i]);
        items := items + [item];
        i := i + 1;
      }
    }

    /** `switchElementStyles(enable)`: adds or removes "droppable". */
    method SwitchElementStyles(enable: bool)
      modifies this`classes
      ensures classes == SwitchedStyles(old(classes), enable)
    {
      if enable {
        classes := classes + {"droppable"};
      } else {
        classes := classes - {"droppable"};
      }
    }

    /** `dragOverHandler`: accepts the drag (prevents the default action)
        and shows the affordance only for a plain-text payload. */
    method DragOverHandler(dataTransfer: DataTransfer?) returns (defaultPrevented: bool)
      modifies this`classes
      ensures defaultPrevented == IsPlainText(dataTransfer)
      ensures classes == if defaultPrevented then old(classes) + {"droppable"} else old(classes)
    {
      defaultPrevented := IsPlainText(dataTransfer);
      if defaultPrevented {
        SwitchElementStyles(true);
      }
    }

    /** `dropHandler`: asks the store to move the dragged project to this
        list's status. */
    method DropHandler(dataTransfer: DataTransfer)
      modifies store
      ensures store.calls == old(store.calls) + [Moved(dataTransfer.GetData(PlainText), StatusFor(listType))]
    {
      var projectId := dataTransfer.GetData(PlainText);
      var projectStatus := StatusFor(listType);
      store.MoveProject(projectId, projectStatus);
    }

    /** `dragLeaveHandler`: removes the affordance. */
    method DragLeaveHandler()
      modifies this`classes
      ensures classes == old(classes) - {"droppable"}
    {
      SwitchElementStyles(false);
    }
  }

  /** A card dragged from a fresh payload onto a list: the payload the card
      attaches passes the list's plain-text test, so the drop is enabled and
      "droppable" shown, and the drop asks the store to move exactly that
      card's project to the list's status. */
  method DragCardOntoList(item: ProjectItem, list: ProjectList) returns (accepted: bool)
    modifies list`classes, list.store
    ensures accepted
    ensures list.classes == old(list.classes) + {"droppable"}
    ensures list.store.calls == old(list.store.calls) + [Moved(item.project.id, StatusFor(list.listType))]
  {
    var dataTransfer := new DataTransfer();
    item.DragStartHandler(dataTransfer);
    accepted := list.DragOverHandler(dataTransfer);
    list.DropHandler(dataTransfer);
  }
}
