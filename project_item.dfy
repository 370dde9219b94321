/** The project card of src/components/project-item.ts: what it shows and
    the payload it attaches when a drag starts. */
module ProjectItemView {
  import opened Text
  import opened Models
  import opened DragData

  /** The `persons` getter: "One person" for a headcount of one, otherwise
      the decimal headcount followed by " persons". */
  function Persons(people: int): (r: string)
    ensures r == "One person" <==> people == 1
    ensures people != 1 ==> r == IntToString(people) + " persons"
  {
    if people == 1 then "One person"
    else
      var digits := IntToString(people);
      assert (digits + " persons")[0] == digits[0] != "One person"[0];
      digits + " persons"
  }

  /** 0 reads "0 persons" and 3 reads "3 persons". */
  lemma PersonsExamples()
    ensures Persons(0) == "0 persons"
    ensures Persons(3) == "3 persons"
  {
    assert IntToString(0) == "0";
    assert IntToString(3) == "3";
  }

  /** Distinct headcounts give distinct phrases. */
  lemma PersonsInjective(a: int, b: int)
    requires Persons(a) == Persons(b)
    ensures a == b
  {
    if a != 1 && b != 1 {
      var ra, rb := IntToString(a), IntToString(b);
      assert |ra| == |rb|;
      assert ra == (ra + " persons")[..|ra|] == (rb + " persons")[..|rb|] == rb;
      IntToStringInjective(a, b);
    }
  }

  /** One rendered card (`ProjectItem`), attached under the list element
      whose id is `hostId`. */
  class ProjectItem {
    const hostId: string
    const project: Project
    /** The text of the card's `h2`, `h3` and `p` elements. */
    var heading: string
    var subheading: string
    var paragraph: string

    /** The card shows the title, the headcount phrase and the description. */
    ghost predicate Rendered()
      reads this
    {
      && heading == project.title
      && subheading == Persons(project.people)
      && paragraph == project.description
    }

    constructor (hostId: string, project: Project)
      ensures this.hostId == hostId && this.project == project
      ensures Rendered()
    {
      this.hostId := hostId;
      this.project := project;
      heading, subheading, paragraph := "", "", "";
      new;
      RenderContent();
    }

    /** `renderContent`: fills the three text elements. */
    method RenderContent()
      modifies this
      ensures Rendered()
    {
      heading := project.title;
      subheading := Persons(project.people);
      paragraph := project.description;
    }

    /** `dragStartHandler`: stores the project id under "text/plain", which
        becomes the last format, and allows only a move; every other format
        keeps its place and its data. */
    method DragStartHandler(dataTransfer: DataTransfer)
      requires dataTransfer.Valid()
      modifies dataTransfer
      ensures dataTransfer.Valid()
      ensures dataTransfer.items == old(dataTransfer.items)[PlainText := project.id]
      ensures dataTransfer.types == Without(old(dataTransfer.types), PlainText) + [PlainText]
      ensures dataTransfer.GetData(PlainText) == project.id
      ensures dataTransfer.effectAllowed == "move"
      ensures forall f | f != PlainText :: dataTransfer.GetData(f) == old(dataTransfer.GetData(f))
    {
      dataTransfer.SetData(PlainText, project.id);
      dataTransfer.effectAllowed := "move";
    }

    /** `dragEndHandler`: only logs the event, so no state changes. */
    method DragEndHandler(dataTransfer: DataTransfer?)
      ensures unchanged(this)
      ensures dataTransfer != null ==> unchanged(dataTransfer)
    {
    }
  }
}
