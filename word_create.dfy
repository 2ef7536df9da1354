/** The "Create Word" page: a six-field form whose vocabulary, section and
    category are chosen through cascading dropdowns, checked for its required
    fields and posted without its empty fields. */
module WordCreate {
  import opened Wrappers
  import Text
  import Api
  import Js
  import Forms

  datatype WordForm = WordForm(
    name: string, description: string, vocabulary: string,
    section: string, category: string, image: string)

  const Blank: WordForm := WordForm("", "", "", "", "", "")
  const FailureFallback: string := "Failed to create word."

  /** The inputs wired to `handleChange`, by their `name` attribute. */
  datatype TextField = Name | Description

  /** `handleChange`: the named input's field takes the typed value. */
  function WithText(form: WordForm, field: TextField, value: string): (r: WordForm)
    ensures field.Name? ==> r.name == value && r.description == form.description
    ensures field.Description? ==> r.description == value && r.name == form.name
    ensures r.vocabulary == form.vocabulary && r.section == form.section
    ensures r.category == form.category && r.image == form.image
  {
    match field
    case Name => form.(name := value)
    case Description => form.(description := value)
  }

  /** `handleVocabularyChange`: a new vocabulary invalidates the chosen
      section and category. */
  function WithVocabulary(form: WordForm, value: string): (r: WordForm)
    ensures r.vocabulary == value && r.section == "" && r.category == ""
    ensures r.name == form.name && r.description == form.description && r.image == form.image
  {
    form.(vocabulary := value, section := "", category := "")
  }

  /** `handleSectionChange`: a new section invalidates the chosen category. */
  function WithSection(form: WordForm, value: string): (r: WordForm)
    ensures r.section == value && r.category == ""
    ensures r.vocabulary == form.vocabulary && r.name == form.name
    ensures r.description == form.description && r.image == form.image
  {
    form.(section := value, category := "")
  }

  /** `handleCategoryChange`: nothing depends on the category. */
  function WithCategory(form: WordForm, value: string): (r: WordForm)
    ensures r.category == value
    ensures r.vocabulary == form.vocabulary && r.section == form.section
    ensures r.name == form.name && r.description == form.description && r.image == form.image
  {
    form.(category := value)
  }

  /** The upload callback: the uploaded file's path (or `""` when the upload
      failed) becomes the image. */
  function WithImage(form: WordForm, url: string): (r: WordForm)
    ensures r.image == url
    ensures r.vocabulary == form.vocabulary && r.section == form.section && r.category == form.category
    ensures r.name == form.name && r.description == form.description
  {
    form.(image := url)
  }

  /** The guard of `handleSubmit`: a blank name or description, or no
      vocabulary or section. Category and image are optional. */
  predicate MissingRequired(form: WordForm) {
    Text.Blank(form.name) || Text.Blank(form.description) || form.vocabulary == "" || form.section == ""
  }

  /** `Object.entries(formData)`, in the order the form declares its fields. */
  function Entries(form: WordForm): (e: Js.Entries)
    ensures Js.DistinctKeys(e) && Js.AllStrings(e)
  {
    [("name", Js.Str(form.name)), ("description", Js.Str(form.description)),
     ("vocabulary", Js.Str(form.vocabulary)), ("section", Js.Str(form.section)),
     ("category", Js.Str(form.category)), ("image", Js.Str(form.image))]
  }

  predicate IsField(key: string) {
    key in ["name", "description", "vocabulary", "section", "category", "image"]
  }

  /** The posted body: `Object.entries(formData)` without the `""` values. */
  function Payload(form: WordForm): (p: Js.Entries)
  {
    Js.OmitEmptyStrings(Entries(form))
  }

  /** The posted body holds every field whose value is not `""`, sent as
      typed (not trimmed), and nothing else. */
  lemma PayloadFields(form: WordForm)
    ensures Js.Lookup(Payload(form), "name") == Forms.NonEmpty(form.name)
    ensures Js.Lookup(Payload(form), "description") == Forms.NonEmpty(form.description)
    ensures Js.Lookup(Payload(form), "vocabulary") == Forms.NonEmpty(form.vocabulary)
    ensures Js.Lookup(Payload(form), "section") == Forms.NonEmpty(form.section)
    ensures Js.Lookup(Payload(form), "category") == Forms.NonEmpty(form.category)
    ensures Js.Lookup(Payload(form), "image") == Forms.NonEmpty(form.image)
  {
    var e := Entries(form);
    Js.OmitEmptyStringsAt(e, 0);
    Js.OmitEmptyStringsAt(e, 1);
    Js.OmitEmptyStringsAt(e, 2);
    Js.OmitEmptyStringsAt(e, 3);
    Js.OmitEmptyStringsAt(e, 4);
    Js.OmitEmptyStringsAt(e, 5);
  }

  lemma PayloadNoOtherFields(form: WordForm, key: string)
    requires !IsField(key)
    ensures Js.Lookup(Payload(form), key).None?
  {
    var e := Entries(form);
    assert Js.Keys(e) == ["name", "description", "vocabulary", "section", "category", "image"];
    Js.OmitNoNewKeys(e, key);
  }

  /** The section dropdown is rendered only once a vocabulary is chosen, the
      category dropdown only once a section is chosen. */
  predicate SectionSelectShown(form: WordForm) { form.vocabulary != "" }
  predicate CategorySelectShown(form: WordForm) { form.section != "" }

  /** The message is shown red when it mentions "failed" or "error". */
  predicate MessageRed(message: string) { Forms.MentionsFailedOrError(message) }

  /** Choosing a vocabulary hides the category dropdown and makes the form
      unsubmittable until a section is chosen again. */
  lemma VocabularyChangeResetsDependents(form: WordForm, value: string)
    ensures !CategorySelectShown(WithVocabulary(form, value))
    ensures MissingRequired(WithVocabulary(form, value))
    ensures SectionSelectShown(WithVocabulary(form, value)) <==> value != ""
  {
  }

  /** Category and image play no part in the validation. */
  lemma OptionalFieldsNotValidated(form: WordForm, category: string, image: string)
    ensures MissingRequired(form) <==> MissingRequired(WithImage(WithCategory(form, category), image))
  {
  }

  /** A name of spaces is rejected, although a valid name is posted with
      its surrounding spaces. */
  lemma NameCheckedTrimmedSentUntrimmed(form: WordForm)
    requires !MissingRequired(form)
    ensures Js.Lookup(Payload(form), "name") == Some(Js.Str(form.name))
    ensures Js.Lookup(Payload(form), "vocabulary") == Some(Js.Str(form.vocabulary))
    ensures Js.Lookup(Payload(form), "section") == Some(Js.Str(form.section))
  {
    PayloadFields(form);
  }

  /** The fallback of a thrown error is shown red. */
  lemma FallbackIsRed()
    ensures MessageRed(FailureFallback)
  {
    Forms.FailedPrefixIsRed(FailureFallback);
  }

  class CreateWordPage {
    var formData: WordForm
    var message: string
    var loading: bool

    constructor ()
      ensures formData == Blank && message == "" && !loading
    {
      formData := Blank;
      message := "";
      loading := false;
    }

    method HandleChange(field: TextField, value: string)
      modifies this
      ensures formData == WithText(old(formData), field, value)
      ensures message == old(message) && loading == old(loading)
    {
      formData := WithText(formData, field, value);
    }

    method HandleVocabularyChange(value: string)
      modifies this
      ensures formData == WithVocabulary(old(formData), value)
      ensures message == old(message) && loading == old(loading)
    {
      formData := WithVocabulary(formData, value);
    }

    method HandleSectionChange(value: string)
      modifies this
      ensures formData == WithSection(old(formData), value)
      ensures message == old(message) && loading == old(loading)
    {
      formData := WithSection(formData, value);
    }

    method HandleCategoryChange(value: string)
      modifies this
      ensures formData == WithCategory(old(formData), value)
      ensures message == old(message) && loading == old(loading)
    {
      formData := WithCategory(formData, value);
    }

    method UploadDone(url: string)
      modifies this
      ensures formData == WithImage(old(formData), url)
      ensures message == old(message) && loading == old(loading)
    {
      formData := WithImage(formData, url);
    }

    /** A click on the (enabled) submit button. An incomplete form only gets
        the validation message and no request; otherwise the message is
        cleared, `loading` is set and the payload is posted. */
    method StartSubmit() returns (request: Option<Js.Entries>)
      requires !loading
      modifies this
      ensures formData == old(formData)
      ensures MissingRequired(formData) ==> request.None? && message == Forms.RequiredFieldsMessage && !loading
      ensures !MissingRequired(formData) ==> request == Some(Payload(formData)) && message == "" && loading
    {
      if MissingRequired(formData) {
        message := Forms.RequiredFieldsMessage;
        return None;
      }
      loading := true;
      message := "";
      request := Some(Payload(formData));
    }

    /** The posted request settles: the message comes from the response or
        the error, and only a successful response leads to the word list. */
    method FinishSubmit(outcome: Api.Outcome<Api.Reply>) returns (navigateTo: Option<string>)
      requires loading
      modifies this
      ensures formData == old(formData) && !loading
      ensures message == Forms.SettledMessage(outcome, FailureFallback)
      ensures navigateTo == Forms.NavigationAfter(outcome, Forms.OnSuccessOnly, "/word")
    {
      message := Forms.SettledMessage(outcome, FailureFallback);
      navigateTo := Forms.NavigationAfter(outcome, Forms.OnSuccessOnly, "/word");
      loading := false;
    }
  }

  /** A form with a name but no vocabulary is refused before any request,
      with the validation message. */
  method SubmitWithoutVocabulary() returns (request: Option<Js.Entries>, shown: string)
    ensures request.None? && shown == "Please fill all required fields."
  {
    var page := new CreateWordPage();
    page.HandleChange(Name, "cat");
    page.HandleChange(Description, "a small animal");
    request := page.StartSubmit();
    shown := page.message;
  }
}
