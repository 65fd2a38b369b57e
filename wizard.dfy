/** The three-step filing wizard (`FileGrievanceView`,
    components/Views.tsx:161-286): location and category, details, review.
    Next is offered below step 3, Back is disabled at step 1, and Submit is
    offered at step 3; no field is checked on the way. The file picker of
    step 2 is not connected to the form, so the form's file list stays
    empty. */
module FileWizard {
  import opened Types

  const LastStep: int := 3

  /** The form as first rendered (Views.tsx:163-171). */
  const EmptyForm: FormData := FormData("", "", "", "", "", [], false)

  /** The text fields the steps edit. */
  datatype TextField = Location | District | Category | Subject | Description

  /** The step whose page renders the field: district, location and category
      on step 1 (Views.tsx:176-201), subject and description on step 2
      (Views.tsx:203-220). */
  function FieldStep(field: TextField): (step: int)
    ensures step == 1 <==> field in {Location, District, Category}
    ensures step == 1 || step == 2
  {
    match field
    case Location => 1
    case District => 1
    case Category => 1
    case Subject => 2
    case Description => 2
  }

  function WithText(form: FormData, field: TextField, text: string): (r: FormData)
    ensures r.files == form.files && r.isAnonymized == form.isAnonymized
    ensures r.location == (if field == Location then text else form.location)
    ensures r.district == (if field == District then text else form.district)
    ensures r.category == (if field == Category then text else form.category)
    ensures r.subject == (if field == Subject then text else form.subject)
    ensures r.description == (if field == Description then text else form.description)
  {
    match field
    case Location => form.(location := text)
    case District => form.(district := text)
    case Category => form.(category := text)
    case Subject => form.(subject := text)
    case Description => form.(description := text)
  }

  class GrievanceWizard {
    var step: int
    var form: FormData

    ghost predicate Valid()
      reads this
    {
      1 <= step <= LastStep && form.files == []
    }

    /** The Next button is rendered (Views.tsx:277-278). */
    predicate NextOffered()
      reads this
    {
      step < LastStep
    }

    /** The Back button is not disabled (Views.tsx:276). */
    predicate BackEnabled()
      reads this
    {
      step != 1
    }

    /** The Submit button is rendered instead of Next (Views.tsx:279-280). */
    predicate SubmitOffered()
      reads this
    {
      !(step < LastStep)
    }

    constructor ()
      ensures Valid()
      ensures step == 1 && form == EmptyForm
    {
      step := 1;
      form := EmptyForm;
    }

    /** `handleNext` (Views.tsx:173), whatever the fields hold. */
    method Next()
      requires Valid() && NextOffered()
      modifies this
      ensures Valid()
      ensures step == old(step) + 1 && form == old(form)
    {
      step := step + 1;
    }

    /** `handleBack` (Views.tsx:174). */
    method Back()
      requires Valid() && BackEnabled()
      modifies this
      ensures Valid()
      ensures step == old(step) - 1 && form == old(form)
    {
      step := step - 1;
    }

    /** A text input's `onChange`: `setFormData({...formData, field: value})`,
        on the step that renders the input (Views.tsx:271-273). */
    method EditText(field: TextField, text: string)
      requires Valid() && step == FieldStep(field)
      modifies this
      ensures Valid()
      ensures form == WithText(old(form), field, text) && step == old(step)
    {
      form := WithText(form, field, text);
    }

    /** The anonymise checkbox's `onChange` (Views.tsx:231), rendered on
        step 2. */
    method SetAnonymized(checked: bool)
      requires Valid() && step == 2
      modifies this
      ensures Valid()
      ensures form == old(form).(isAnonymized := checked) && step == old(step)
    {
      form := form.(isAnonymized := checked);
    }

    /** Submit (Views.tsx:280): the form goes to the controller as it is,
        with no file names. */
    method Submit() returns (data: FormData)
      requires Valid() && SubmitOffered()
      ensures data == form && data.files == [] && step == LastStep
    {
      data := form;
    }
  }

  /** Whatever is typed, two Next presses from a fresh wizard reach the
      Submit button, and what it hands over is exactly what was typed. */
  method FillAndSubmit(location: string, district: string, category: string,
                       subject: string, description: string, anonymous: bool)
    returns (data: FormData)
    ensures data == FormData(location, district, category, subject, description, [], anonymous)
  {
    var w := new GrievanceWizard();
    w.EditText(District, district);
    w.EditText(Location, location);
    w.EditText(Category, category);
    w.Next();
    w.EditText(Subject, subject);
    w.EditText(Description, description);
    w.SetAnonymized(anonymous);
    w.Next();
    data := w.Submit();
  }
}
