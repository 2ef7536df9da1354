/** The "Create Category" page: a name, a vocabulary and a section of that
    vocabulary, all required; the body keeps only the truthy fields. */
module CategoryCreate {
  import opened Wrappers
  import Text
  import Api
  import Js
  import Forms

  datatype CategoryForm = CategoryForm(name: string, vocabulary: string, section: string)

  const Blank: CategoryForm := CategoryForm("", "", "")
  const FailureFallback: string := "Failed to create category."

  /** `handleChange`, wired to the name input only. */
  function WithName(form: CategoryForm, value: string): (r: CategoryForm)
    ensures r.name == value && r.vocabulary == form.vocabulary && r.section == form.section
  {
    form.(name := value)
  }

  /** `handleVocabularyChange`: the chosen section belongs to the old
      vocabulary and is cleared. */
  function WithVocabulary(form: CategoryForm, value: string): (r: CategoryForm)
    ensures r.vocabulary == value && r.section == "" && r.name == form.name
  {
    form.(vocabulary := value, section := "")
  }

  /** `handleSectionChange`: only the section changes. */
  function WithSection(form: CategoryForm, value: string): (r: CategoryForm)
    ensures r.section == value && r.vocabulary == form.vocabulary && r.name == form.name
  {
    form.(section := value)
  }

  /** The guard of `handleSubmit`. */
  predicate MissingRequired(form: CategoryForm) {
    Text.Blank(form.name) || form.vocabulary == "" || form.section == ""
  }

  function Entries(form: CategoryForm): (e: Js.Entries)
    ensures Js.DistinctKeys(e) && Js.AllStrings(e)
  {
    [("name", Js.Str(form.name)), ("vocabulary", Js.Str(form.vocabulary)), ("section", Js.Str(form.section))]
  }

  /** `.filter(([_, v]) => v)` over the form's entries. */
  function Payload(form: CategoryForm): (p: Js.Entries)
  {
    Js.OmitFalsy(Entries(form))
  }

  /** Every value of this form is a string, so the truthy filter drops
      exactly the empty fields and keeps the rest as typed. */
  lemma PayloadFields(form: CategoryForm)
    ensures Js.Lookup(Payload(form), "name") == Forms.NonEmpty(form.name)
    ensures Js.Lookup(Payload(form), "vocabulary") == Forms.NonEmpty(form.vocabulary)
    ensures Js.Lookup(Payload(form), "section") == Forms.NonEmpty(form.section)
    ensures Payload(form) == Js.OmitEmptyStrings(Entries(form))
  {
    var e := Entries(form);
    Js.OmitFalsyAt(e, 0);
    Js.OmitFalsyAt(e, 1);
    Js.OmitFalsyAt(e, 2);
    Js.AllStringsFalsyOnlyWhenEmpty(e);
    Js.OmitFiltersAgree(e);
  }

  /** A form that passes the guard is posted whole. */
  lemma ValidFormPostedWhole(form: CategoryForm)
    requires !MissingRequired(form)
    ensures Payload(form) == Entries(form)
  {
    var e := Entries(form);
    Js.OmitFalsyKeepsTruthy(e);
  }

  /** The section dropdown is rendered only once a vocabulary is chosen. */
  predicate SectionSelectShown(form: CategoryForm) { form.vocabulary != "" }

  /** The message is shown red when it mentions "failed" (not "error"). */
  predicate MessageRed(message: string) { Forms.MentionsFailed(message) }

  /** Changing the vocabulary always leaves the form unsubmittable until a
      section is chosen again. */
  lemma VocabularyChangeBlocksSubmit(form: CategoryForm, value: string)
    ensures MissingRequired(WithVocabulary(form, value))
    ensures WithSection(WithVocabulary(form, value), form.section) == form.(vocabulary := value)
  {
  }

  lemma FallbackIsRed()
    ensures MessageRed(FailureFallback)
  {
    Forms.FailedPrefixIsRed(FailureFallback);
  }

  class CreateCategoryPage {
    var formData: CategoryForm
    var message: string
    var loading: bool

    constructor ()
      ensures formData == Blank && message == "" && !loading
    {
      formData := Blank;
      message := "";
      loading := false;
    }

    method HandleChange(value: string)
      modifies this
      ensures formData == WithName(old(formData), value)
      ensures message == old(message) && loading == old(loading)
    {
      formData := WithName(formData, value);
    }

    method HandleVocabularyChange(value: string)
      modifies this
      ensures formData == WithVocabulary(old(formData), value)
      ensures message == old(message) && loading == old(loading)
    {
      formData := WithVocabulary(formData, value);
    }

    method HandleSectionChange(value: string)
      modifies this
      ensures formData == WithSection(old(formData), value)
      ensures message == old(message) && loading == old(loading)
    {
      formData := WithSection(formData, value);
    }

    method StartSubmit() returns (request: Option<Js.Entries>)
      requires !loading
      modifies this
      ensures formData == old(formData)
      ensures MissingRequired(formData) ==> request.None? && message == Forms.RequiredFieldsMessage && !loading
      ensures !MissingRequired(formData) ==> request == Some(Payload(formData)) && message == "" && loading
    {
      if MissingRequired(formData) {
        message := Forms.RequiredFieldsMessage;
        return None;
      }
      loading := true;
      message := "";
      request := Some(Payload(formData));
    }

    /** Every response, successful or not, leads to the category list; only
        a thrown error keeps the page. */
    method FinishSubmit(outcome: Api.Outcome<Api.Reply>) returns (navigateTo: Option<string>)
      requires loading
      modifies this
      ensures formData == old(formData) && !loading
      ensures message == Forms.SettledMessage(outcome, FailureFallback)
      ensures navigateTo == Forms.NavigationAfter(outcome, Forms.OnAnyResponse, "/category")
    {
      message := Forms.SettledMessage(outcome, FailureFallback);
      navigateTo := Forms.NavigationAfter(outcome, Forms.OnAnyResponse, "/category");
      loading := false;
    }
  }
}
