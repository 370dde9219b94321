/** The generic field validator of src/util/validation.ts. */
module Validation {
  import opened Wrappers
  import opened Text

  /** The value under validation, `string | number`; numbers are integers. */
  datatype Value = Str(s: string) | Num(n: int)

  /** The `Validatable` record. An absent `required` is `false`; an absent
      (or null) bound is `None`, which is what the `!= null` tests see. */
  datatype Validatable = Validatable(
    value: Value,
    required: bool,
    minLength: Option<int>,
    maxLength: Option<int>,
    min: Option<int>,
    max: Option<int>)

  /** `value.toString()`. */
  function Rendering(v: Value): string {
    match v
    case Str(s) => s
    case Num(n) => IntToString(n)
  }

  /** `value.toString().trim().length`: every check measures this, even the
      numeric `min` and `max`. */
  function InputLength(v: Value): nat {
    TrimmedLength(Rendering(v))
  }

  /** What `validate` returns: the conjunction of the enabled checks, each a
      strict comparison; `min` and `max` only apply to numbers. */
  predicate Valid(input: Validatable) {
    Accepts(input, InputLength(input.value))
  }

  /** The checks of `validate` against a measured length `len`. */
  predicate Accepts(input: Validatable, len: nat) {
    && (input.required ==> len != 0)
    && (input.minLength.Some? ==> len > input.minLength.value)
    && (input.maxLength.Some? ==> len < input.maxLength.value)
    && (input.min.Some? && input.value.Num? ==> len > input.min.value)
    && (input.max.Some? && input.value.Num? ==> len < input.max.value)
  }

  /** `validate`: a flag threaded through five conditional updates. */
  method Validate(input: Validatable) returns (isValid: bool)
    ensures isValid == Valid(input)
  {
    isValid := true;
    var inputLength := InputLength(input.value);
    var isNumber := input.value.Num?;

    if input.required {
      isValid := isValid && inputLength != 0;
    }
    if input.minLength.Some? {
      isValid := isValid && inputLength > input.minLength.value;
    }
    if input.maxLength.Some? {
      isValid := isValid && inputLength < input.maxLength.value;
    }
    if input.min.Some? && isNumber {
      isValid := isValid && inputLength > input.min.value;
    }
    if input.max.Some? && isNumber {
      isValid := isValid && inputLength < input.max.value;
    }
  }

  /** The five checks of `validate`. */
  datatype Check = Required | MinLength | MaxLength | Min | Max

  /** The order in which `validate` applies the checks. */
  const SourceOrder: seq<Check> := [Required, MinLength, MaxLength, Min, Max]

  /** The guard of a check's `if`. */
  predicate Enabled(input: Validatable, c: Check) {
    match c
    case Required => input.required
    case MinLength => input.minLength.Some?
    case MaxLength => input.maxLength.Some?
    case Min => input.min.Some? && input.value.Num?
    case Max => input.max.Some? && input.value.Num?
  }

  /** The comparison a check conjoins when it is enabled. */
  predicate Passes(input: Validatable, c: Check, len: nat)
    requires Enabled(input, c)
  {
    match c
    case Required => len != 0
    case MinLength => len > input.minLength.value
    case MaxLength => len < input.maxLength.value
    case Min => len > input.min.value
    case Max => len < input.max.value
  }

  /** One `if (guard) isValid = isValid && comparison` step. */
  function Step(isValid: bool, input: Validatable, c: Check): bool {
    if Enabled(input, c) then isValid && Passes(input, c, InputLength(input.value)) else isValid
  }

  /** The flag after applying the checks of `order` in turn. */
  function RunChecks(isValid: bool, input: Validatable, order: seq<Check>): bool {
    if order == [] then isValid else RunChecks(Step(isValid, input, order[0]), input, order[1..])
  }

  /** Threading the flag through a list of checks conjoins the checks. */
  lemma {:induction false} RunChecksConjoins(isValid: bool, input: Validatable, order: seq<Check>)
    ensures RunChecks(isValid, input, order)
            == (isValid && forall i | 0 <= i < |order| :: Enabled(input, order[i]) ==> Passes(input, order[i], InputLength(input.value)))
  {
    if order != [] {
      RunChecksConjoins(Step(isValid, input, order[0]), input, order[1..]);
      assert forall i | 1 <= i < |order| :: order[i] == order[1..][i - 1];
    }
  }

  /** The order of the checks does not matter: any list that contains each
      of the five checks, in any order and with repetitions, gives the
      result of `validate`. */
  lemma ValidInAnyOrder(input: Validatable, order: seq<Check>)
    requires Required in order && MinLength in order && MaxLength in order && Min in order && Max in order
    ensures RunChecks(true, input, order) == Valid(input)
  {
    RunChecksConjoins(true, input, order);
    var len := InputLength(input.value);
    var all := forall i | 0 <= i < |order| :: Enabled(input, order[i]) ==> Passes(input, order[i], len);
    if all {
      forall c: Check | Enabled(input, c) ensures Passes(input, c, len) {
        var i :| 0 <= i < |order| && order[i] == c;
      }
    }
    AcceptsIsEveryCheck(input, len);
  }

  /** The checks, taken together, are the conjunction over all five of
      "disabled or passes". */
  lemma AcceptsIsEveryCheck(input: Validatable, len: nat)
    ensures Accepts(input, len) == forall c: Check :: Enabled(input, c) ==> Passes(input, c, len)
  {
    if forall c: Check :: Enabled(input, c) ==> Passes(input, c, len) {
      assert Enabled(input, Required) ==> Passes(input, Required, len);
      assert Enabled(input, MinLength) ==> Passes(input, MinLength, len);
      assert Enabled(input, MaxLength) ==> Passes(input, MaxLength, len);
      assert Enabled(input, Min) ==> Passes(input, Min, len);
      assert Enabled(input, Max) ==> Passes(input, Max, len);
    }
  }

  /** The source's order is one such order. */
  lemma SourceOrderIsValidate(input: Validatable)
    ensures RunChecks(true, input, SourceOrder) == Valid(input)
  {
    ValidInAnyOrder(input, SourceOrder);
  }

  /** With no constraint set, every value is valid. */
  lemma NoConstraintsValid(value: Value)
    ensures Valid(Validatable(value, false, None, None, None, None))
  {
  }

  /** A required value whose rendering is empty or whitespace only is invalid. */
  lemma RequiredRejectsBlank(input: Validatable)
    requires input.required && Blank(Rendering(input.value))
    ensures !Valid(input)
  {
  }

  /** `minLength` is strict: a trimmed length equal to it fails. */
  lemma MinLengthStrict(input: Validatable)
    requires input.minLength == Some(InputLength(input.value))
    ensures !Valid(input)
  {
  }

  /** `maxLength` is strict: a trimmed length equal to it fails. */
  lemma MaxLengthStrict(input: Validatable)
    requires input.maxLength == Some(InputLength(input.value))
    ensures !Valid(input)
  {
  }

  /** `min` and `max` are ignored for string values. */
  lemma MinMaxIgnoredForStrings(input: Validatable)
    requires input.value.Str?
    ensures Valid(input) == Valid(input.(min := None, max := None))
  {
  }

  /** For a number, `min` and `max` bound the number of characters of its
      decimal rendering, not the number itself. */
  lemma NumericBoundsCountCharacters(input: Validatable)
    requires input.value.Num?
    ensures Valid(input) == (&& Accepts(input.(min := None, max := None), |IntToString(input.value.n)|)
                             && (input.min.Some? ==> |IntToString(input.value.n)| > input.min.value)
                             && (input.max.Some? ==> |IntToString(input.value.n)| < input.max.value))
  {
    IntToStringTrimmed(input.value.n);
    AcceptsSplitsBounds(input, InputLength(input.value));
  }

  /** The numeric bounds are two conjuncts of their own. */
  lemma AcceptsSplitsBounds(input: Validatable, len: nat)
    ensures Accepts(input, len) == (&& Accepts(input.(min := None, max := None), len)
                                   && (input.min.Some? && input.value.Num? ==> len > input.min.value)
                                   && (input.max.Some? && input.value.Num? ==> len < input.max.value))
  {
  }

  /** The value 3 fails `min: 1` (one character is not more than 1), and the
      value 100 passes `max: 5` (three characters are fewer than 5). */
  lemma NumericBoundsExamples()
    ensures !Valid(Validatable(Num(3), false, None, None, Some(1), None))
    ensures Valid(Validatable(Num(100), false, None, None, None, Some(5)))
  {
    var three := Validatable(Num(3), false, None, None, Some(1), None);
    NatToStringLength(3);
    NumericBoundsCountCharacters(three);
    var hundred := Validatable(Num(100), false, None, None, None, Some(5));
    NatToStringLength(10);
    assert |NatToString(100)| == |NatToString(10)| + 1;
    NumericBoundsCountCharacters(hundred);
  }

  /** `w` carries every constraint of `input`, with the same bounds, and
      possibly more. */
  predicate Extends(w: Validatable, input: Validatable) {
    && w.value == input.value
    && (input.required ==> w.required)
    && (input.minLength.Some? ==> w.minLength == input.minLength)
    && (input.maxLength.Some? ==> w.maxLength == input.maxLength)
    && (input.min.Some? ==> w.min == input.min)
    && (input.max.Some? ==> w.max == input.max)
  }

  /** Enabling more constraints never turns an invalid input valid. */
  lemma MoreConstraintsNeverValidate(input: Validatable, w: Validatable)
    requires Extends(w, input) && !Valid(input)
    ensures !Valid(w)
  {
  }
}
