/** The input form of src/components/project-input.ts: the accept/reject
    rule built from three `validate` calls, and the submit flow. */
module ProjectInputView {
  import opened Wrappers
  import opened Text
  import opened Validation
  import opened Models

  /** `titleValidatable`: required. */
  function TitleValidatable(title: string): Validatable {
    Validatable(Str(title), true, None, None, None, None)
  }

  /** `descriptionValidatable`: required, `minLength: 5`. */
  function DescriptionValidatable(description: string): Validatable {
    Validatable(Str(description), true, Some(5), None, None, None)
  }

  /** `peopleValidatable`: required, `min: 1`, `max: 5`; the value is the
      field's text, a string. */
  function PeopleValidatable(people: string): Validatable {
    Validatable(Str(people), true, None, None, Some(1), Some(5))
  }

  /** The local the source names `isFormValid`: despite its name it holds
      when at least one field fails validation. */
  predicate SomeFieldFails(title: string, description: string, people: string) {
    || !Valid(TitleValidatable(title))
    || !Valid(DescriptionValidatable(description))
    || !Valid(PeopleValidatable(people))
  }

  /** `gatherUserInput`: nothing when a field fails, otherwise the three
      field texts as they were typed. The form is accepted exactly when the
      title is not blank, the trimmed description is at least six UTF-16
      code units long, and people is not blank. */
  function GatherUserInput(title: string, description: string, people: string): (r: Option<UserInput>)
    ensures r.Some? <==> !Blank(title) && TrimmedLength(description) >= 6 && !Blank(people)
    ensures r.Some? ==> r.value == UserInput(title, description, people)
  {
    TitleRule(title);
    DescriptionRule(description);
    PeopleRule(people);
    if SomeFieldFails(title, description, people) then None
    else Some(UserInput(title, description, people))
  }

  /** The title validation asks for a non-blank title. */
  lemma TitleRule(title: string)
    ensures Valid(TitleValidatable(title)) <==> !Blank(title)
  {
    assert InputLength(Str(title)) == TrimmedLength(title);
  }

  /** The description validation asks for more than five code units after
      trimming (which also rules out a blank description). */
  lemma DescriptionRule(description: string)
    ensures Valid(DescriptionValidatable(description)) <==> TrimmedLength(description) > 5
  {
    assert InputLength(Str(description)) == TrimmedLength(description);
  }

  /** The people validation asks only for non-blank text: `min` and `max`
      are skipped for a string, so the range 1..5 is never enforced. */
  lemma PeopleRule(people: string)
    ensures Valid(PeopleValidatable(people)) <==> !Blank(people)
  {
    MinMaxIgnoredForStrings(PeopleValidatable(people));
    assert InputLength(Str(people)) == TrimmedLength(people);
  }

  /** The `isFormValid` flag holds exactly when some field fails, and then
      nothing is returned. */
  lemma FlagMeansSomeFieldFails(title: string, description: string, people: string)
    ensures SomeFieldFails(title, description, people)
            <==> Blank(title) || TrimmedLength(description) <= 5 || Blank(people)
    ensures SomeFieldFails(title, description, people) <==> GatherUserInput(title, description, people).None?
  {
    TitleRule(title);
    DescriptionRule(description);
    PeopleRule(people);
  }

  /** A description of exactly five characters after trimming is rejected,
      because `minLength` is strict. */
  lemma FiveCharacterDescriptionRejected(title: string, description: string, people: string)
    requires TrimmedLength(description) == 5
    ensures GatherUserInput(title, description, people) == None
  {
    MinLengthStrict(DescriptionValidatable(description));
  }

  /** "10" people, with a valid title and description, is accepted. */
  lemma TenPeopleAccepted()
    ensures GatherUserInput("Build API", "Design and implement", "10")
            == Some(UserInput("Build API", "Design and implement", "10"))
  {
    var title, description, people := "Build API", "Design and implement", "10";
    assert !Blank(title) by { assert !IsWhitespace(title[0]); }
    assert !Blank(people) by { assert !IsWhitespace(people[0]); }
    assert TrimmedLength(description) >= 20 by {
      assert !IsWhitespace(description[0]) && !IsWhitespace(description[19]);
      TrimUnchanged(description);
    }
  }

  /** A two-character description is rejected. */
  lemma ShortDescriptionRejected()
    ensures GatherUserInput("X", "hi", "10") == None
  {
    var description := "hi";
    assert TrimmedLength(description) <= 4 by {
      assert !IsWhitespace(description[0]) && !IsWhitespace(description[1]);
      TrimUnchanged(description);
    }
  }

  /** `length` counts UTF-16 code units: a description of three or more
      characters beyond U+FFFF (emoji, say) is at least six units long, so
      it passes `minLength: 5` although it may have only three characters. */
  lemma AstralDescriptionAccepted(title: string, description: string, people: string)
    requires title != [] && !IsWhitespace(title[0])
    requires |description| >= 3 && forall i | 0 <= i < |description| :: description[i] as int > 0xFFFF
    requires people != [] && !IsWhitespace(people[0])
    ensures GatherUserInput(title, description, people) == Some(UserInput(title, description, people))
  {
    assert !Blank(title) by { assert !IsWhitespace(title[0]); }
    assert !Blank(people) by { assert !IsWhitespace(people[0]); }
    assert TrimmedLength(description) >= 6 by {
      assert !IsWhitespace(description[0]) && !IsWhitespace(description[|description| - 1]);
      TrimUnchanged(description);
      Utf16LengthAstral(description);
    }
  }

  /** The form (`ProjectInput`): the texts of its three input elements, and
      the store it submits to. */
  class ProjectInput {
    const store: ProjectStore
    var titleValue: string
    var descriptionValue: string
    var peopleValue: string

    constructor (store: ProjectStore)
      ensures this.store == store
      ensures titleValue == "" && descriptionValue == "" && peopleValue == ""
    {
      this.store := store;
      titleValue, descriptionValue, peopleValue := "", "", "";
    }

    /** `clearInputs`: empties the three fields. */
    method ClearInputs()
      modifies this`titleValue, this`descriptionValue, this`peopleValue
      ensures titleValue == "" && descriptionValue == "" && peopleValue == ""
    {
      titleValue := "";
      descriptionValue := "";
      peopleValue := "";
    }

    /** `submitHandler`: on an accepted input, one `addProject` call with
        the field texts, then the fields are cleared; on a rejected input,
        no call and the fields keep their texts. */
    method SubmitHandler()
      modifies this`titleValue, this`descriptionValue, this`peopleValue, store
      ensures var accepted := GatherUserInput(old(titleValue), old(descriptionValue), old(peopleValue)).Some?;
              if accepted then
                && store.calls == old(store.calls) + [Added(old(titleValue), old(descriptionValue), old(peopleValue))]
                && titleValue == "" && descriptionValue == "" && peopleValue == ""
              else
                && store.calls == old(store.calls)
                && titleValue == old(titleValue) && descriptionValue == old(descriptionValue)
                && peopleValue == old(peopleValue)
    {
      var userInput := GatherUserInput(titleValue, descriptionValue, peopleValue);
      if userInput.Some? {
        var UserInput(title, desc, people) := userInput.value;
        store.AddProject(title, desc, people);
        ClearInputs();
      }
    }
  }
}
