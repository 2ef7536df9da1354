/** The "Create Section" page: a required name and vocabulary and an
    optional uploaded image; the body keeps only the truthy fields. */
module SectionCreate {
  import opened Wrappers
  import Text
  import Api
  import Js
  import Forms

  datatype SectionForm = SectionForm(name: string, vocabulary: string, image: string)

  const Blank: SectionForm := SectionForm("", "", "")
  const FailureFallback: string := "Failed to create section."

  /** `handleChange`, wired to the name input only. */
  function WithName(form: SectionForm, value: string): (r: SectionForm)
    ensures r.name == value && r.vocabulary == form.vocabulary && r.image == form.image
  {
    form.(name := value)
  }

  /** `handleVocabularyChange`: a section has no dependent field, so nothing
      else is cleared. */
  function WithVocabulary(form: SectionForm, value: string): (r: SectionForm)
    ensures r.vocabulary == value && r.name == form.name && r.image == form.image
  {
    form.(vocabulary := value)
  }

  /** The upload callback: the file path, or `""` after a failed upload. */
  function WithImage(form: SectionForm, url: string): (r: SectionForm)
    ensures r.image == url && r.name == form.name && r.vocabulary == form.vocabulary
  {
    form.(image := url)
  }

  /** The guard of `handleSubmit`; the image is optional. */
  predicate MissingRequired(form: SectionForm) {
    Text.Blank(form.name) || form.vocabulary == ""
  }

  function Entries(form: SectionForm): (e: Js.Entries)
    ensures Js.DistinctKeys(e) && Js.AllStrings(e)
  {
    [("name", Js.Str(form.name)), ("vocabulary", Js.Str(form.vocabulary)), ("image", Js.Str(form.image))]
  }

  /** `.filter(([_, v]) => v)` over the form's entries. */
  function Payload(form: SectionForm): (p: Js.Entries)
  {
    Js.OmitFalsy(Entries(form))
  }

  /** The body holds the non-empty fields as typed; a section created without
      an upload (or after a failed one) is posted without `image`. */
  lemma PayloadFields(form: SectionForm)
    ensures Js.Lookup(Payload(form), "name") == Forms.NonEmpty(form.name)
    ensures Js.Lookup(Payload(form), "vocabulary") == Forms.NonEmpty(form.vocabulary)
    ensures Js.Lookup(Payload(form), "image") == Forms.NonEmpty(form.image)
  {
    var e := Entries(form);
    Js.OmitFalsyAt(e, 0);
    Js.OmitFalsyAt(e, 1);
    Js.OmitFalsyAt(e, 2);
  }

  /** The image plays no part in the validation. */
  lemma ImageNotValidated(form: SectionForm, url: string)
    ensures MissingRequired(WithImage(form, url)) <==> MissingRequired(form)
  {
  }

  predicate MessageRed(message: string) { Forms.MentionsFailed(message) }

  lemma FallbackIsRed()
    ensures MessageRed(FailureFallback)
  {
    Forms.FailedPrefixIsRed(FailureFallback);
  }

  class CreateSectionPage {
    var formData: SectionForm
    var message: string
    var loading: bool

    constructor ()
      ensures formData == Blank && message == "" && !loading
    {
      formData := Blank;
      message := "";
      loading := false;
    }

    method HandleChange(value: string)
      modifies this
      ensures formData == WithName(old(formData), value)
      ensures message == old(message) && loading == old(loading)
    {
      formData := WithName(formData, value);
    }

    method HandleVocabularyChange(value: string)
      modifies this
      ensures formData == WithVocabulary(old(formData), value)
      ensures message == old(message) && loading == old(loading)
    {
      formData := WithVocabulary(formData, value);
    }

    method UploadDone(url: string)
      modifies this
      ensures formData == WithImage(old(formData), url)
      ensures message == old(message) && loading == old(loading)
    {
      formData := WithImage(formData, url);
    }

    method StartSubmit() returns (request: Option<Js.Entries>)
      requires !loading
      modifies this
      ensures formData == old(formData)
      ensures MissingRequired(formData) ==> request.None? && message == Forms.RequiredFieldsMessage && !loading
      ensures !MissingRequired(formData) ==> request == Some(Payload(formData)) && message == "" && loading
    {
      if MissingRequired(formData) {
        message := Forms.RequiredFieldsMessage;
        return None;
      }
      loading := true;
      message := "";
      request := Some(Payload(formData));
    }

    method FinishSubmit(outcome: Api.Outcome<Api.Reply>) returns (navigateTo: Option<string>)
      requires loading
      modifies this
      ensures formData == old(formData) && !loading
      ensures message == Forms.SettledMessage(outcome, FailureFallback)
      ensures navigateTo == Forms.NavigationAfter(outcome, Forms.OnAnyResponse, "/section")
    {
      message := Forms.SettledMessage(outcome, FailureFallback);
      navigateTo := Forms.NavigationAfter(outcome, Forms.OnAnyResponse, "/section");
      loading := false;
    }
  }
}
