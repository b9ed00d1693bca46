/**
 * The profile form of the `collect_user_profile` tool: editing a field
 * clears that field's error, and submitting either reports the invalid
 * fields or hands the trimmed answers back as the tool's result.
 */
module UserProfile {
  import opened JsText

  datatype Field = Name | Age | Occupation | Goals

  /** The form's four answers, as typed. */
  datatype Form = Form(name: string, age: string, occupation: string, goals: string) {
    function Get(f: Field): string {
      match f
      case Name => name
      case Age => age
      case Occupation => occupation
      case Goals => goals
    }

    /** `{ ...form, [field]: val }`. */
    function With(f: Field, val: string): (r: Form)
      ensures r.Get(f) == val
      ensures forall g :: g != f ==> r.Get(g) == Get(g)
    {
      match f
      case Name => this.(name := val)
      case Age => this.(age := val)
      case Occupation => this.(occupation := val)
      case Goals => this.(goals := val)
    }
  }

  const EmptyForm := Form("", "", "", "")

  /** Whether an answer is missing: `!s.trim()`, which holds exactly when `s` is all whitespace. */
  predicate Missing(s: string)
    decreases |s|
  {
    s == [] || (IsWhitespace(s[0]) && Missing(s[1..]))
  }

  lemma {:induction false} MissingIsBlank(s: string)
    ensures Missing(s) <==> IsBlank(s)
    decreases |s|
  {
    if s != [] {
      MissingIsBlank(s[1..]);
      assert IsBlank(s) <==> IsWhitespace(s[0]) && IsBlank(s[1..]) by {
        if IsWhitespace(s[0]) && IsBlank(s[1..]) {
          forall i | 0 <= i < |s| ensures IsWhitespace(s[i]) {
            if i > 0 {
              assert s[i] == s[1..][i - 1];
            }
          }
        }
      }
    }
  }

  lemma MissingIsEmptyTrim(s: string)
    ensures Missing(s) <==> Trim(s) == ""
  {
    MissingIsBlank(s);
    TrimEmptyIffBlank(s);
  }

  /**
   * The errors a submission finds. `isNumber` stands for
   * `!isNaN(Number(s))`.
   */
  function Errors(form: Form, isNumber: string -> bool): map<Field, string> {
    var e1: map<Field, string> := if Missing(form.name) then map[Name := "Required"] else map[];
    var e2 := if Missing(form.age) || !isNumber(form.age) then e1[Age := "Enter a valid age"] else e1;
    var e3 := if Missing(form.occupation) then e2[Occupation := "Required"] else e2;
    if Missing(form.goals) then e3[Goals := "Required"] else e3
  }

  /**
   * Each field is flagged exactly when it is missing (and the age also when
   * it is not a number), with the message the form shows.
   */
  lemma ErrorsFlagInvalidFields(form: Form, isNumber: string -> bool)
    ensures Name in Errors(form, isNumber) <==> Missing(form.name)
    ensures Occupation in Errors(form, isNumber) <==> Missing(form.occupation)
    ensures Goals in Errors(form, isNumber) <==> Missing(form.goals)
    ensures Age in Errors(form, isNumber) <==> Missing(form.age) || !isNumber(form.age)
    ensures Name in Errors(form, isNumber) ==> Errors(form, isNumber)[Name] == "Required"
    ensures Occupation in Errors(form, isNumber) ==> Errors(form, isNumber)[Occupation] == "Required"
    ensures Goals in Errors(form, isNumber) ==> Errors(form, isNumber)[Goals] == "Required"
    ensures Age in Errors(form, isNumber) ==> Errors(form, isNumber)[Age] == "Enter a valid age"
    ensures Errors(form, isNumber).Keys <= {Name, Age, Occupation, Goals}
  {
  }

  /** The answers as sent back: each one trimmed. */
  function Trimmed(form: Form): Form {
    Form(Trim(form.name), Trim(form.age), Trim(form.occupation), Trim(form.goals))
  }

  /** A present answer, trimmed, is still present and trims to itself. */
  lemma TrimmedPresent(s: string)
    requires !Missing(s)
    ensures !Missing(Trim(s)) && Trim(s) != "" && Trim(Trim(s)) == Trim(s)
  {
    MissingIsEmptyTrim(s);
    TrimIdempotent(s);
    MissingIsEmptyTrim(Trim(s));
  }

  /** With no error, every answer is present and the age is a number. */
  lemma NoErrorsMeansComplete(form: Form, isNumber: string -> bool)
    requires Errors(form, isNumber) == map[]
    ensures !Missing(form.name) && !Missing(form.age) && !Missing(form.occupation) && !Missing(form.goals)
    ensures isNumber(form.age)
  {
    ErrorsFlagInvalidFields(form, isNumber);
  }

  /** A complete form has no error. */
  lemma CompleteMeansNoErrors(form: Form, isNumber: string -> bool)
    requires !Missing(form.name) && !Missing(form.age) && !Missing(form.occupation) && !Missing(form.goals)
    requires isNumber(form.age)
    ensures Errors(form, isNumber) == map[]
  {
  }

  /**
   * What is sent back would itself pass the form's checks, given that
   * `Number` ignores surrounding whitespace.
   */
  lemma TrimmedStaysValid(form: Form, isNumber: string -> bool)
    requires isNumber(Trim(form.age)) == isNumber(form.age)
    requires Errors(form, isNumber) == map[]
    ensures Errors(Trimmed(form), isNumber) == map[]
    ensures var t := Trimmed(form);
      && t.name != "" && t.age != "" && t.occupation != "" && t.goals != ""
      && t.name == Trim(t.name) && t.age == Trim(t.age)
      && t.occupation == Trim(t.occupation) && t.goals == Trim(t.goals)
  {
    NoErrorsMeansComplete(form, isNumber);
    TrimmedPresent(form.name);
    TrimmedPresent(form.age);
    TrimmedPresent(form.occupation);
    TrimmedPresent(form.goals);
    var t := Trimmed(form);
    assert isNumber(t.age);
    CompleteMeansNoErrors(t, isNumber);
  }

  /** `handleSubmit`'s first half: the error map, filled in field by field. */
  method CollectErrors(form: Form, isNumber: string -> bool) returns (newErrors: map<Field, string>)
    ensures newErrors == Errors(form, isNumber)
  {
    newErrors := map[];
    if Missing(form.name) {
      newErrors := newErrors[Name := "Required"];
    }
    if Missing(form.age) || !isNumber(form.age) {
      newErrors := newErrors[Age := "Enter a valid age"];
    }
    if Missing(form.occupation) {
      newErrors := newErrors[Occupation := "Required"];
    }
    if Missing(form.goals) {
      newErrors := newErrors[Goals := "Required"];
    }
  }

  /** One mounted form, with its state and the results it has handed back. */
  class ProfileForm {
    var form: Form
    var errors: map<Field, string>
    /** The arguments of every `addResult` call so far. */
    var submitted: seq<Form>

    constructor ()
      ensures form == EmptyForm && errors == map[] && submitted == []
    {
      form := EmptyForm;
      errors := map[];
      submitted := [];
    }

    /** `set(field, val)`: that answer becomes `val` and that field's error is cleared. */
    method Set(field: Field, val: string)
      modifies this`form, this`errors
      ensures form == old(form).With(field, val)
      ensures errors == old(errors)[field := ""]
    {
      form := form.With(field, val);
      errors := errors[field := ""];
    }

    /**
     * `handleSubmit`: with any error, the error map is replaced by the new
     * one and nothing is sent; otherwise the trimmed answers are sent once
     * and the errors are left as they were.
     */
    method HandleSubmit(isNumber: string -> bool)
      modifies this`errors, this`submitted
      ensures Errors(form, isNumber) != map[] ==> errors == Errors(form, isNumber) && submitted == old(submitted)
      ensures Errors(form, isNumber) == map[] ==>
                errors == old(errors) && submitted == old(submitted) + [Trimmed(form)]
    {
      var answers := form;
      var newErrors := CollectErrors(answers, isNumber);
      if newErrors != map[] {
        errors := newErrors;
        return;
      }
      submitted := submitted + [Trimmed(answers)];
    }
  }

  /** Editing a field leaves the other answers and the other errors alone. */
  lemma SetTouchesOneField(form: Form, errors: map<Field, string>, field: Field, val: string, other: Field)
    requires other != field
    ensures form.With(field, val).Get(other) == form.Get(other)
    ensures other in errors ==> other in errors[field := ""] && errors[field := ""][other] == errors[other]
    ensures other !in errors ==> other !in errors[field := ""]
  {
  }
}
