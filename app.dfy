/** The earlier, single-file form of src/app.ts: a simpler acceptance rule
    that only rejects empty fields. */
module LegacyApp {
  import opened Wrappers
  import opened Text
  import opened Models
  import Current = ProjectInputView

  /** `isEmpty`: the trimmed text has no characters, which is exactly when
      the text is whitespace only. */
  function IsEmpty(input: string): (b: bool)
    ensures b <==> Blank(input)
  {
    TrimmedLength(input) == 0
  }

  /** `gatherUserInput`: rejects when any field is empty after trimming,
      and otherwise returns the three texts as typed; there is no length or
      range bound. */
  function GatherUserInput(title: string, description: string, people: string): (r: Option<UserInput>)
    ensures r.Some? <==> !Blank(title) && !Blank(description) && !Blank(people)
    ensures r.Some? ==> r.value == UserInput(title, description, people)
  {
    if IsEmpty(title) || IsEmpty(description) || IsEmpty(people) then None
    else Some(UserInput(title, description, people))
  }

  /** The later rule accepts only what this one accepts, and with the same
      result. */
  lemma LaterRuleIsStricter(title: string, description: string, people: string)
    requires Current.GatherUserInput(title, description, people).Some?
    ensures GatherUserInput(title, description, people) == Current.GatherUserInput(title, description, people)
  {
  }

  /** This rule accepts any short description that the later rule rejects,
      such as ("X", "hi", "10"). */
  lemma LaterRuleRejectsMore(title: string, description: string, people: string)
    requires title != [] && !IsWhitespace(title[0])
    requires description != [] && !IsWhitespace(description[0]) && TrimmedLength(description) <= 5
    requires people != [] && !IsWhitespace(people[0])
    ensures GatherUserInput(title, description, people) == Some(UserInput(title, description, people))
    ensures Current.GatherUserInput(title, description, people) == None
  {
    AcceptsVisibleStarts(title, description, people);
  }

  /** Texts that start with a visible character are accepted. */
  lemma AcceptsVisibleStarts(title: string, description: string, people: string)
    requires title != [] && !IsWhitespace(title[0])
    requires description != [] && !IsWhitespace(description[0])
    requires people != [] && !IsWhitespace(people[0])
    ensures GatherUserInput(title, description, people) == Some(UserInput(title, description, people))
  {
  }

  class ProjectInput {
    var titleValue: string
    var descriptionValue: string
    var peopleValue: string

    constructor ()
      ensures titleValue == "" && descriptionValue == "" && peopleValue == ""
    {
      titleValue, descriptionValue, peopleValue := "", "", "";
    }

    /** `clearInputs`: empties the three fields. */
    method ClearInputs()
      modifies this
      ensures titleValue == "" && descriptionValue == "" && peopleValue == ""
    {
      titleValue := "";
      descriptionValue := "";
      peopleValue := "";
    }

    /** `submitHandler`: clears the fields when the input is accepted and
        leaves them as typed when it is not. */
    method SubmitHandler()
      modifies this
      ensures if GatherUserInput(old(titleValue), old(descriptionValue), old(peopleValue)).Some? then
                titleValue == "" && descriptionValue == "" && peopleValue == ""
              else
                titleValue == old(titleValue) && descriptionValue == old(descriptionValue)
                && peopleValue == old(peopleValue)
    {
      var userInput := GatherUserInput(titleValue, descriptionValue, peopleValue);
      if userInput.Some? {
        ClearInputs();
      }
    }
  }
}
