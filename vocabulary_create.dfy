/** The "Create Vocabulary" page: name, type, description and an uploaded
    image, posted without any client-side check; the body keeps only the
    truthy fields. */
module VocabularyCreate {
  import opened Wrappers
  import Api
  import Js
  import Forms

  datatype VocabularyForm = VocabularyForm(name: string, vocabType: string, description: string, image: string)

  const Blank: VocabularyForm := VocabularyForm("", "", "", "")
  const FailureFallback: string := "Failed to create vocabulary."

  /** The inputs wired to `handleChange`, by their `name` attribute: the name
      input, the type select and the description textarea. */
  datatype InputField = Name | Type | Description

  function WithInput(form: VocabularyForm, field: InputField, value: string): (r: VocabularyForm)
    ensures field.Name? ==> r.name == value && r.vocabType == form.vocabType && r.description == form.description
    ensures field.Type? ==> r.vocabType == value && r.name == form.name && r.description == form.description
    ensures field.Description? ==> r.description == value && r.name == form.name && r.vocabType == form.vocabType
    ensures r.image == form.image
  {
    match field
    case Name => form.(name := value)
    case Type => form.(vocabType := value)
    case Description => form.(description := value)
  }

  /** The upload callback: the file path, or `""` after a failed upload. */
  function WithImage(form: VocabularyForm, url: string): (r: VocabularyForm)
    ensures r.image == url && r.name == form.name && r.vocabType == form.vocabType && r.description == form.description
  {
    form.(image := url)
  }

  function Entries(form: VocabularyForm): (e: Js.Entries)
    ensures Js.DistinctKeys(e) && Js.AllStrings(e)
  {
    [("name", Js.Str(form.name)), ("type", Js.Str(form.vocabType)),
     ("description", Js.Str(form.description)), ("image", Js.Str(form.image))]
  }

  function Payload(form: VocabularyForm): (p: Js.Entries)
  {
    Js.OmitFalsy(Entries(form))
  }

  /** The body holds the non-empty fields; an empty description or image is
      left out rather than sent as `""`. Even an empty name or type is
      simply left out: nothing stops the request. */
  lemma PayloadFields(form: VocabularyForm)
    ensures Js.Lookup(Payload(form), "name") == Forms.NonEmpty(form.name)
    ensures Js.Lookup(Payload(form), "type") == Forms.NonEmpty(form.vocabType)
    ensures Js.Lookup(Payload(form), "description") == Forms.NonEmpty(form.description)
    ensures Js.Lookup(Payload(form), "image") == Forms.NonEmpty(form.image)
  {
    var e := Entries(form);
    Js.OmitFalsyAt(e, 0);
    Js.OmitFalsyAt(e, 1);
    Js.OmitFalsyAt(e, 2);
    Js.OmitFalsyAt(e, 3);
  }

  /** The blank form is posted as an empty object. */
  lemma BlankFormPostsNothing()
    ensures Payload(Blank) == []
  {
    var e := Entries(Blank);
    assert e[1..][1..][1..][1..] == [];
  }

  class CreateVocabularyPage {
    var formData: VocabularyForm
    var message: string
    var loading: bool

    constructor ()
      ensures formData == Blank && message == "" && !loading
    {
      formData := Blank;
      message := "";
      loading := false;
    }

    method HandleChange(field: InputField, value: string)
      modifies this
      ensures formData == WithInput(old(formData), field, value)
      ensures message == old(message) && loading == old(loading)
    {
      formData := WithInput(formData, field, value);
    }

    method UploadDone(url: string)
      modifies this
      ensures formData == WithImage(old(formData), url)
      ensures message == old(message) && loading == old(loading)
    {
      formData := WithImage(formData, url);
    }

    /** There is no validation: every click clears the message, sets
        `loading` and posts the payload. */
    method StartSubmit() returns (request: Js.Entries)
      requires !loading
      modifies this
      ensures formData == old(formData) && loading && message == ""
      ensures request == Payload(formData)
    {
      loading := true;
      message := "";
      request := Payload(formData);
    }

    /** Every response leads to the vocabulary list. The message is always
        shown in green, whatever it says. */
    method FinishSubmit(outcome: Api.Outcome<Api.Reply>) returns (navigateTo: Option<string>)
      requires loading
      modifies this
      ensures formData == old(formData) && !loading
      ensures message == Forms.SettledMessage(outcome, FailureFallback)
      ensures navigateTo == Forms.NavigationAfter(outcome, Forms.OnAnyResponse, "/vocabulary")
    {
      message := Forms.SettledMessage(outcome, FailureFallback);
      navigateTo := Forms.NavigationAfter(outcome, Forms.OnAnyResponse, "/vocabulary");
      loading := false;
    }
  }
}
