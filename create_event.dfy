/**
 * The create-event form: single-field updates, the image preview, and the
 * submit check on the four required fields. Submission only navigates away;
 * nothing is stored.
 */
module CreateEvent {
  import opened Wrappers

  /** `formData`: field name to text, as the object spread `{ ...prev, [name]: value }` treats it. */
  type EventForm = map<string, string>

  const OptionalFields: set<string> := {"description", "duration", "category"}
  const ExplorePath: string := "/explore"

  const InitialForm: EventForm := map[
    "title" := "", "description" := "", "location" := "", "date" := "",
    "time" := "", "duration" := "", "category" := ""]

  /** `formData[field]` is truthy: present and non-empty. */
  predicate Filled(form: EventForm, field: string) {
    field in form && form[field] != ""
  }

  /** `{ ...prev, [name]: value }`. */
  function WithField(form: EventForm, name: string, value: string): (r: EventForm)
    ensures r.Keys == form.Keys + {name}
    ensures name in r && r[name] == value
    ensures forall k :: k in form && k != name ==> r[k] == form[k]
  {
    form[name := value]
  }

  datatype SubmitOutcome =
    | Rejected(message: string)
    | Published(navigateTo: string, data: EventForm, image: Option<string>)

  const MissingFieldsMessage: string := "Please fill in all required fields"

  /** `handleSubmit`: reject unless title, location, date and time are all filled; otherwise go to /explore. */
  function SubmitDecision(form: EventForm, imagePreview: Option<string>): (r: SubmitOutcome)
    ensures r.Published? <==>
      Filled(form, "title") && Filled(form, "location") && Filled(form, "date") && Filled(form, "time")
    ensures r.Published? ==> r == Published(ExplorePath, form, imagePreview)
    ensures r.Rejected? ==> r.message == MissingFieldsMessage
  {
    if !Filled(form, "title") || !Filled(form, "location") || !Filled(form, "date") || !Filled(form, "time") then
      Rejected(MissingFieldsMessage)
    else
      Published(ExplorePath, form, imagePreview)
  }

  /** An untouched form cannot be submitted. */
  lemma InitialFormRejected(imagePreview: Option<string>)
    ensures SubmitDecision(InitialForm, imagePreview).Rejected?
  {
    assert !Filled(InitialForm, "title");
  }

  /** Description, duration, category and the image never decide whether a submit goes through. */
  lemma OptionalFieldsDoNotMatter(form: EventForm, name: string, value: string, image1: Option<string>, image2: Option<string>)
    requires name in OptionalFields
    ensures SubmitDecision(WithField(form, name, value), image1).Published? == SubmitDecision(form, image2).Published?
  {
  }

  class CreateEventPage {
    var formData: EventForm
    var imagePreview: Option<string>

    constructor ()
      ensures formData == InitialForm && imagePreview == None
    {
      formData := InitialForm;
      imagePreview := None;
    }

    /** `handleInputChange` for the input or text area named `name`. */
    method HandleInputChange(name: string, value: string)
      modifies this`formData
      ensures formData == WithField(old(formData), name, value)
    {
      formData := WithField(formData, name, value);
    }

    /** `handleSelectChange`: the same single-field update for a select. */
    method HandleSelectChange(name: string, value: string)
      modifies this`formData
      ensures formData == WithField(old(formData), name, value)
    {
      formData := WithField(formData, name, value);
    }

    /** The file reader's completion: the data URL becomes the preview. */
    method ImageLoaded(dataUrl: string)
      modifies this`imagePreview
      ensures imagePreview == Some(dataUrl)
    {
      imagePreview := Some(dataUrl);
    }

    method RemoveImage()
      modifies this`imagePreview
      ensures imagePreview == None
    {
      imagePreview := None;
    }

    /** Submitting changes no state: it either rejects or navigates to /explore. */
    method HandleSubmit() returns (outcome: SubmitOutcome)
      ensures outcome.Published? <==>
        Filled(formData, "title") && Filled(formData, "location") && Filled(formData, "date") && Filled(formData, "time")
      ensures outcome.Published? ==> outcome.navigateTo == ExplorePath && outcome.data == formData
    {
      outcome := SubmitDecision(formData, imagePreview);
    }
  }
}
