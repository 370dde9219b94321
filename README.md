# ts-drag-and-drop, modelled in Dafny

This project models the logic of a small in-browser project tracker. A form
collects a title, a description and a headcount. Accepted entries become
projects, which are shown in two lists, "active" and "finished". A user moves
a card from one list to the other by dragging it.

What is modelled:

- `Validation`: the generic field validator `validate`. It is a method that
  threads an `isValid` flag through five conditional updates. It is proved
  equal to `Valid`, which is the conjunction of the enabled strict checks.
  Both are measured against the trimmed length of the value's rendering.
- `Text`: what the validator and the views need from strings.
  `String.prototype.trim` uses ECMAScript's full whitespace and
  line-terminator set. `length` counts UTF-16 code units, so a character
  beyond U+FFFF counts twice. There is also the decimal rendering of an
  integer, with its inverse, and `toUpperCase` on ASCII letters.
- `ProjectInputView`: the form's accept/reject rule, built from three
  `validate` calls. `clearInputs` and `submitHandler` are methods on a class
  whose fields are the three input texts.
- `ProjectListView`: the status filter and proofs that it is a stable
  subsequence and that the two lists partition the projects. It also holds
  the type-to-status mapping of a drop, the `droppable` class updates, the
  list's id and heading strings, and `renderProjects`. `renderProjects` is a
  loop that replaces the list's cards with one new card per assigned project.
  `DragCardOntoList` runs a whole drag: a card's drag start, the list's drag
  over, and the drop.
- `ProjectItemView`: the headcount phrase, the card's rendered text, and the
  drag-start payload.
- `DragData`: the drag payload (`types`, `getData`, `setData`,
  `effectAllowed`).
- `Models`: the project record and the store. The store is only a log of
  the `addProject`, `moveProject` and `addListener` calls made to it.
- `LegacyApp`: the earlier single-file form in `src/app.ts`. It rejects only
  fields that are empty after trimming. It is proved strictly weaker than the
  later rule.

The constraints the form declares in src/components/project-input.ts do
not all take effect as written:

- The description declares `minLength: 5` (line 40). The check in
  src/util/validation.ts:20 is strict, so a trimmed description of exactly
  5 code units is rejected and 6 is the real minimum.
- People declares `min: 1, max: 5` (lines 45-46). The value is the input
  element's text, a string, and src/util/validation.ts:25-29 skips `min`
  and `max` for strings. Any non-blank text passes, "10" included.
- For a numeric value, `min` and `max` bound the number of characters of the
  number's rendering, not the number itself (src/util/validation.ts:13 and
  25-29).
- So ("X", "hi", "10") is rejected only because of its description, and
  never because of its people count.

## Model

| member | source | states |
|---|---|---|
| `Text.Trim` | src/util/validation.ts:13 | the trimmed text is empty exactly when every character is whitespace, and otherwise neither starts nor ends with whitespace |
| `Text.Utf16Length` | src/util/validation.ts:13 | `length` of a text lies between its number of characters and twice that number |
| `Text.Utf16LengthBasicPlane` | src/util/validation.ts:13 | for text within U+0000..U+FFFF, `length` is the number of characters |
| `Text.Utf16LengthAstral` | src/util/validation.ts:13 | for text made only of characters beyond U+FFFF, `length` is twice the number of characters |
| `Text.TrimmedLength` | src/util/validation.ts:13 | `trim().length` is zero exactly when the text is blank, and lies between the trimmed text's character count and twice that |
| `Text.TrimUnchanged` | src/util/validation.ts:13 | a text with no whitespace at either end is its own trim |
| `Text.ParseNatToString` | src/components/project-item.ts:12 | reading back the decimal rendering of a natural number gives the number |
| `Text.IntToStringInjective` | src/components/project-item.ts:12 | distinct integers have distinct decimal renderings |
| `Text.IntToString` | src/components/project-item.ts:12 | a number's `toString()`: '-' leads exactly for negatives, then the digits; read back by `ParseNatToString`, injective by `IntToStringInjective` |
| `Text.Upper` | src/components/project-list.ts:69 | `toUpperCase()` on ASCII letters; a function without a contract of its own, spelled out on both list types by `HeadingsSpelled` |
| `Text.IntToStringTrimmed` | src/util/validation.ts:13 | trimming the rendering of a number changes nothing, and its `trim().length` is its character count |
| `Validation.Rendering` | src/util/validation.ts:13 | `value.toString()`: a string is itself, a number its decimal rendering; a function without a contract of its own, characterised by `IntToStringTrimmed` and `NumericBoundsCountCharacters` |
| `Validation.InputLength` | src/util/validation.ts:13 | `value.toString().trim().length`; a function without a contract of its own, zero exactly for a blank rendering through `TrimmedLength`, and the character count of a number through `NumericBoundsCountCharacters` |
| `Validation.Valid` | src/util/validation.ts:11-32 | the verdict `validate` should reach; a predicate without a contract of its own, tied to the source by `Validate`, `SourceOrderIsValidate` and `AcceptsIsEveryCheck` |
| `Validation.Accepts` | src/util/validation.ts:16-29 | the five checks against a given length; a predicate without a contract of its own, characterised by `AcceptsIsEveryCheck` and `AcceptsSplitsBounds` |
| `Validation.Validate` | src/util/validation.ts:11-32 | the flag threaded through the five conditional updates ends equal to the conjunction `Valid` of the enabled strict checks |
| `Validation.RunChecksConjoins` | src/util/validation.ts:16-29 | applying any list of checks to the flag in turn conjoins them: the flag stays true exactly when every enabled check in the list passes |
| `Validation.ValidInAnyOrder` | src/util/validation.ts:12-31 | any ordering of the five checks, repetitions allowed, gives the same result as `validate` |
| `Validation.SourceOrderIsValidate` | src/util/validation.ts:16-29 | running the checks in the source's order gives `Valid` |
| `Validation.AcceptsIsEveryCheck` | src/util/validation.ts:16-29 | the result is the conjunction over all five checks of "disabled or passes" |
| `Validation.NoConstraintsValid` | src/util/validation.ts:12-31 | with no constraint set every value is valid |
| `Validation.RequiredRejectsBlank` | src/util/validation.ts:13-17 | a required value whose rendering is empty or whitespace only is invalid |
| `Validation.MinLengthStrict` | src/util/validation.ts:19-20 | a trimmed length equal to `minLength` fails |
| `Validation.MaxLengthStrict` | src/util/validation.ts:22-23 | a trimmed length equal to `maxLength` fails |
| `Validation.MinMaxIgnoredForStrings` | src/util/validation.ts:14-29 | for a string value, removing `min` and `max` does not change the verdict |
| `Validation.AcceptsSplitsBounds` | src/util/validation.ts:25-29 | the `min` and `max` checks are two separate conjuncts that apply only to numbers |
| `Validation.NumericBoundsCountCharacters` | src/util/validation.ts:25-29 | for a number, `min` and `max` compare the character count of its decimal rendering |
| `Validation.NumericBoundsExamples` | src/util/validation.ts:25-29 | 3 fails `min: 1` (one character) and 100 passes `max: 5` (three characters) |
| `Validation.MoreConstraintsNeverValidate` | src/util/validation.ts:16-29 | adding constraints to an invalid input never makes it valid |
| `Models.ProjectStore.AddProject` | src/components/project-input.ts:73 | an `addProject` call appends exactly one entry, with its arguments, to the store's call log |
| `Models.ProjectStore.MoveProject` | src/components/project-list.ts:43 | a `moveProject` call appends exactly one entry to the call log |
| `Models.ProjectStore.AddListener` | src/components/project-list.ts:57 | an `addListener` call appends exactly one entry to the call log |
| `DragData.DataTransfer.constructor` | src/components/project-item.ts:24-25 | a drag starts with no formats, no entries and no effect chosen |
| `DragData.DataTransfer.GetData` | src/components/project-list.ts:39 | `getData` of an absent format is the empty string |
| `DragData.DataTransfer.SetData` | src/components/project-item.ts:25 | `setData` replaces only that format's entry and keeps formats and entries in one-to-one correspondence without duplicates |
| `ProjectItemView.Persons` | src/components/project-item.ts:10-12 | the phrase is "One person" exactly when the headcount is 1, and otherwise the decimal headcount followed by " persons" |
| `ProjectItemView.PersonsExamples` | src/components/project-item.ts:12 | 0 reads "0 persons" and 3 reads "3 persons" |
| `ProjectItemView.PersonsInjective` | src/components/project-item.ts:10-12 | distinct headcounts give distinct phrases |
| `ProjectItemView.ProjectItem.constructor` | src/components/project-item.ts:15-21 | a new card keeps its project and host id and is rendered |
| `ProjectItemView.ProjectItem.RenderContent` | src/components/project-item.ts:39-46 | the heading is the title, the subheading the headcount phrase, the paragraph the description |
| `ProjectItemView.ProjectItem.DragStartHandler` | src/components/project-item.ts:24-27 | the "text/plain" entry becomes the project id and "text/plain" moves to the end of the formats; every other format keeps its place and its data; the effect is "move" |
| `ProjectItemView.ProjectItem.DragEndHandler` | src/components/project-item.ts:30-32 | drag end changes no state |
| `ProjectListView.StatusFor` | src/components/project-list.ts:40-41 | a drop requests Active exactly when the list type is 'active' |
| `ProjectListView.Matches` | src/components/project-list.ts:58-60 | `projectsFilter`; a predicate without a contract of its own, characterised through `Filter` by `FilterKeepsStatus` and `FilterIndices` |
| `ProjectListView.Filter` | src/components/project-list.ts:61 | `projects.filter(projectsFilter)`; what it keeps, and in what order, is stated by `FilterIndices`, `FilterKeepsStatus` and `FiltersPartition` |
| `ProjectListView.FilterKeepsStatus` | src/components/project-list.ts:58-61 | every project the filter keeps has the list's status |
| `ProjectListView.PositionsLength` | src/components/project-list.ts:61 | there are as many kept positions as kept projects |
| `ProjectListView.PositionsLocate` | src/components/project-list.ts:61 | there are as many kept positions as kept projects, and the k-th kept project is the project at the k-th kept position |
| `ProjectListView.PositionsIncrease` | src/components/project-list.ts:61 | the kept positions strictly increase and lie within the input |
| `ProjectListView.PositionsExact` | src/components/project-list.ts:58-61 | a position is kept exactly when its project has the list's status |
| `ProjectListView.FilterIndices` | src/components/project-list.ts:58-61 | the filter is a stable subsequence that keeps exactly the projects with the list's status, in their original order |
| `ProjectListView.FiltersPartition` | src/components/project-list.ts:58-60 | the 'active' and 'finished' filters together hold every project exactly as often as the input does |
| `ProjectListView.FiltersDisjoint` | src/components/project-list.ts:58-60 | no project is kept by both filters |
| `ProjectListView.ListIdsSpelled` | src/components/project-list.ts:67-68 | the list ids are "active-projects-list" and "finished-projects-list" |
| `ProjectListView.HeadingsSpelled` | src/components/project-list.ts:69 | the headings are "ACTIVE PROJECTS" and "FINISHED PROJECTS" |
| `ProjectListView.ListId` | src/components/project-list.ts:67 | the list element's id; spelled out for both list types by `ListIdsSpelled` |
| `ProjectListView.Heading` | src/components/project-list.ts:69 | the heading text; spelled out for both list types by `HeadingsSpelled` |
| `ProjectListView.IsPlainText` | src/components/project-list.ts:29-30 | only a present payload that holds "text/plain" passes, and an empty payload never does |
| `ProjectListView.SwitchedStyles` | src/components/project-list.ts:19-24 | "droppable" is present exactly when asked for, and no other class changes |
| `ProjectListView.SwitchedStylesIdempotent` | src/components/project-list.ts:19-24 | switching twice the same way is switching once |
| `ProjectListView.ProjectList.constructor` | src/components/project-list.ts:12-17 | a new list has no projects or cards, its id and heading are rendered, and one listener is registered |
| `ProjectListView.ProjectList.Configure` | src/components/project-list.ts:52-63 | configuring registers exactly one store listener |
| `ProjectListView.ProjectList.OnProjectsChanged` | src/components/project-list.ts:57-63 | the assigned projects become the filter of the notified projects, all with the list's status, and the cards show them |
| `ProjectListView.ProjectList.RenderContent` | src/components/project-list.ts:66-70 | the list id is the type followed by "-projects-list" and the heading is the upper-cased type followed by " PROJECTS" |
| `ProjectListView.ProjectList.RenderProjects` | src/components/project-list.ts:72-80 | afterwards the cards are new, one per assigned project, in order, under this list, each rendered; the card ids equal the assigned projects' ids |
| `ProjectListView.ProjectList.SwitchElementStyles` | src/components/project-list.ts:19-25 | the class set gains or loses "droppable" and nothing else |
| `ProjectListView.ProjectList.DragOverHandler` | src/components/project-list.ts:28-35 | the drop is enabled and "droppable" added exactly when a payload exists and its first format is "text/plain"; otherwise the classes are unchanged |
| `ProjectListView.ProjectList.DropHandler` | src/components/project-list.ts:38-44 | exactly one move request is logged, with the payload's "text/plain" data unchanged and the list's status |
| `ProjectListView.DragCardOntoList` | src/components/project-list.ts:28-44 | from a fresh payload, a card's drag start makes the list's drag over succeed and show "droppable", and the drop logs exactly one move of that card's project to the list's status |
| `ProjectListView.ProjectList.DragLeaveHandler` | src/components/project-list.ts:47-50 | "droppable" is absent afterwards and no other class changes |
| `ProjectInputView.GatherUserInput` | src/components/project-input.ts:28-58 | the input is accepted exactly when the title is not blank, the trimmed description is at least 6 UTF-16 code units long and people is not blank; accepted texts are returned untrimmed |
| `ProjectInputView.TitleRule` | src/components/project-input.ts:33-36 | the title validation asks for a non-blank title |
| `ProjectInputView.DescriptionRule` | src/components/project-input.ts:37-41 | the description validation asks for more than five UTF-16 code units after trimming |
| `ProjectInputView.PeopleRule` | src/components/project-input.ts:42-47 | the people validation asks only for non-blank text, so the range 1..5 is never enforced |
| `ProjectInputView.SomeFieldFails` | src/components/project-input.ts:48-50 | the local `isFormValid`; a predicate without a contract of its own, characterised by `FlagMeansSomeFieldFails` |
| `ProjectInputView.FlagMeansSomeFieldFails` | src/components/project-input.ts:48-55 | the `isFormValid` flag holds exactly when some field fails, and then nothing is returned |
| `ProjectInputView.FiveCharacterDescriptionRejected` | src/components/project-input.ts:37-41 | a description of exactly five code units after trimming is rejected |
| `ProjectInputView.TenPeopleAccepted` | src/components/project-input.ts:42-57 | people "10" with a valid title and description is accepted, unchanged |
| `ProjectInputView.ShortDescriptionRejected` | src/components/project-input.ts:37-55 | ("X", "hi", "10") is rejected |
| `ProjectInputView.AstralDescriptionAccepted` | src/components/project-input.ts:37-41 | a description of three or more characters beyond U+FFFF, such as three emoji, is accepted, because `length` counts them twice |
| `ProjectInputView.ProjectInput.constructor` | src/components/project-input.ts:12-20 | a new form has empty fields and keeps its store |
| `ProjectInputView.ProjectInput.ClearInputs` | src/components/project-input.ts:60-64 | all three fields become the empty string |
| `ProjectInputView.ProjectInput.SubmitHandler` | src/components/project-input.ts:67-77 | on acceptance exactly one `addProject` call with the typed texts is logged and the fields are cleared; on rejection nothing is logged and the fields keep their texts |
| `LegacyApp.IsEmpty` | src/app.ts:42 | a text is empty after trimming exactly when it is whitespace only |
| `LegacyApp.GatherUserInput` | src/app.ts:37-50 | the input is accepted exactly when no field is blank, with no length or range bound, and the texts are returned untrimmed |
| `LegacyApp.AcceptsVisibleStarts` | src/app.ts:44-49 | three texts that each start with a visible character are accepted |
| `LegacyApp.LaterRuleIsStricter` | src/app.ts:37-50 | whatever the later form accepts, this rule accepts with the same result |
| `LegacyApp.LaterRuleRejectsMore` | src/app.ts:44-49 | a visible but short description, as in ("X", "hi", "10"), is accepted here and rejected by the later form |
| `LegacyApp.ProjectInput.constructor` | src/app.ts:21-35 | a new form starts with empty fields |
| `LegacyApp.ProjectInput.ClearInputs` | src/app.ts:52-56 | all three fields become the empty string |
| `LegacyApp.ProjectInput.SubmitHandler` | src/app.ts:59-68 | the fields are cleared exactly when the input is accepted, and otherwise keep their texts |

## Left out

- The project store (`projectState`, src/state/project-state.ts) is not part of this model. Its semantics (creating a project with a fresh id and status Active, moving a project, notifying listeners) are not modelled. Only the calls the components make are logged. Store-level properties (exactly one new Active project per submit, a move relocating a card) are therefore not stated.
- src/models/project.ts and src/models/drag-drop.ts are not part of this model. `ProjectStatus` is the two-valued datatype that its uses imply.
- src/components/base-component.ts and the element lookups: template cloning, `getElementById`, `querySelector`, `insertAdjacentElement`. `renderProjects` is assumed to find this list's own element by its id.
- src/decorators/autobind.ts and its copy in src/app.ts: method binding only.
- webpack.config.js: build configuration.
- The `+people` conversion to a JavaScript number: accepted input and the logged `addProject` call keep the people text as typed.
- Non-integer numbers in `validate`: numeric values and bounds are integers, rendered in decimal.
- Text.IntToString: JavaScript renders integers of magnitude 10^21 or more in exponent form ("1e+21"); the model always writes all the digits.
- `toUpperCase` beyond ASCII letters; only the list types' names are upper-cased.
- `alert`, `console.log`, `addEventListener` and browser event dispatch. `preventDefault` in `dragOverHandler` is modelled as the returned `defaultPrevented` flag; in `submitHandler` it is left out.
- ProjectItemView.ProjectItem.DragStartHandler: takes a non-null payload, as the source's `!` assertions demand; a null payload would throw in the source.
- ProjectListView.ProjectList.DropHandler: takes a non-null payload, as the source's `!` assertion demands; a null payload would throw in the source.
- DragData.DataTransfer: the browser's protected mode (data unreadable during `dragover`), item kinds other than strings, and `clearData` are not modelled.
- The constructors of the two form classes start with empty fields; the source reads whatever the template's inputs hold.
