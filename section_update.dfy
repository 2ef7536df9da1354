/** The "Update Section" page: the loaded section object becomes the form
    as it is, the user edits its name and image, and every truthy property
    of the form is sent back. */
module SectionUpdate {
  import opened Wrappers
  import Api
  import Js
  import Forms

  const Blank: Js.Entries := [("name", Js.Str("")), ("image", Js.Str(""))]
  const FailureFallback: string := "Failed to update section."

  /** `handleChange`, wired to the name input only. */
  function WithName(form: Js.Entries, value: string): (r: Js.Entries)
    ensures Js.Lookup(r, "name") == Some(Js.Str(value))
    ensures forall k :: k != "name" ==> Js.Lookup(r, k) == Js.Lookup(form, k)
  {
    Js.Put(form, "name", Js.Str(value))
  }

  /** The upload callback: the file path, or `""` after a failed upload. */
  function WithImage(form: Js.Entries, url: string): (r: Js.Entries)
    ensures Js.Lookup(r, "image") == Some(Js.Str(url))
    ensures forall k :: k != "image" ==> Js.Lookup(r, k) == Js.Lookup(form, k)
  {
    Js.Put(form, "image", Js.Str(url))
  }

  /** `.filter(([_, v]) => v)` over the form's entries. */
  function Payload(form: Js.Entries): (p: Js.Entries)
  {
    Js.OmitFalsy(form)
  }

  /** Whatever the load put into the form is sent back when truthy, not only
      the name and image: a key is in the body exactly when the form holds a
      truthy value for it. */
  lemma PayloadKeepsTruthyProperties(form: Js.Entries, key: string)
    requires Js.DistinctKeys(form)
    ensures Js.Lookup(Payload(form), key).Some? <==> Js.Lookup(form, key).Some? && Js.Truthy(Js.Lookup(form, key).value)
    ensures Js.Lookup(Payload(form), key).Some? ==> Js.Lookup(Payload(form), key) == Js.Lookup(form, key)
  {
    Js.LookupOmitFalsy(form, key);
  }

  /** Editing the name changes only the name in the body: it is sent when the
      new name is non-empty, and every other property is sent as before. */
  lemma EditedNamePayload(form: Js.Entries, value: string, key: string)
    requires Js.DistinctKeys(form)
    ensures Js.Lookup(Payload(WithName(form, value)), "name") == Forms.NonEmpty(value)
    ensures key != "name" ==> Js.Lookup(Payload(WithName(form, value)), key) == Js.Lookup(Payload(form), key)
  {
    var edited := WithName(form, value);
    Js.PutKeepsDistinct(form, "name", Js.Str(value));
    Js.LookupOmitFalsy(edited, "name");
    Js.LookupOmitFalsy(edited, key);
    Js.LookupOmitFalsy(form, key);
  }

  /** An example of `PayloadKeepsTruthyProperties`, which proves the general
      case: a loaded section keeps its `_id` in the body while an empty image
      is dropped. */
  lemma LoadedIdIsSentBack()
    ensures Payload([("_id", Js.Str("s1")), ("name", Js.Str("Fruits")), ("image", Js.Str(""))])
         == [("_id", Js.Str("s1")), ("name", Js.Str("Fruits"))]
  {
    var e: Js.Entries := [("_id", Js.Str("s1")), ("name", Js.Str("Fruits")), ("image", Js.Str(""))];
    assert e[1..] == [("name", Js.Str("Fruits")), ("image", Js.Str(""))];
    assert e[1..][1..] == [("image", Js.Str(""))];
    assert e[1..][1..][1..] == [];
  }

  predicate MessageRed(message: string) { Forms.MentionsFailed(message) }

  class UpdateSectionPage {
    /** The route's `id`; `""` stands for a missing parameter. */
    const id: string
    var formData: Js.Entries
    var message: string
    var loading: bool

    /** The form is a JavaScript object: no key occurs twice. */
    ghost predicate Valid()
      reads this
    {
      Js.DistinctKeys(formData)
    }

    constructor (id: string)
      ensures Valid()
      ensures this.id == id && formData == Blank && message == "" && !loading
    {
      this.id := id;
      formData := Blank;
      message := "";
      loading := false;
    }

    predicate LoadRequested()
      reads this
    {
      id != ""
    }

    /** A response's `data` becomes the form verbatim, with all its
        properties; a failure leaves the form as it was. The data is a
        parsed JSON object, so its keys are distinct. */
    method FinishLoad(outcome: Api.Outcome<Js.Entries>)
      requires Valid() && LoadRequested()
      requires outcome.Success? ==> Js.DistinctKeys(outcome.data)
      modifies this
      ensures Valid()
      ensures outcome.Success? ==> formData == outcome.data
      ensures !outcome.Success? ==> formData == old(formData)
      ensures message == old(message) && loading == old(loading)
    {
      if outcome.Success? {
        formData := outcome.data;
      }
    }

    method HandleChange(value: string)
      requires Valid()
      modifies this
      ensures Valid()
      ensures formData == WithName(old(formData), value)
      ensures message == old(message) && loading == old(loading)
    {
      Js.PutKeepsDistinct(formData, "name", Js.Str(value));
      formData := WithName(formData, value);
    }

    method UploadDone(url: string)
      requires Valid()
      modifies this
      ensures Valid()
      ensures formData == WithImage(old(formData), url)
      ensures message == old(message) && loading == old(loading)
    {
      Js.PutKeepsDistinct(formData, "image", Js.Str(url));
      formData := WithImage(formData, url);
    }

    /** The body holds exactly the truthy properties of the form, whatever
        the load put there. */
    method StartUpdate() returns (request: Option<Js.Entries>)
      requires Valid() && !loading
      modifies this
      ensures Valid() && formData == old(formData)
      ensures id == "" ==> request.None? && message == old(message) && !loading
      ensures id != "" ==> request == Some(Payload(formData)) && message == "" && loading
      ensures request.Some? ==> forall key ::
        Js.Lookup(request.value, key) == (if Js.Lookup(formData, key).Some? && Js.Truthy(Js.Lookup(formData, key).value) then Js.Lookup(formData, key) else None)
    {
      if id == "" {
        return None;
      }
      loading := true;
      message := "";
      request := Some(Payload(formData));
      forall key
        ensures Js.Lookup(request.value, key) == (if Js.Lookup(formData, key).Some? && Js.Truthy(Js.Lookup(formData, key).value) then Js.Lookup(formData, key) else None)
      {
        PayloadKeepsTruthyProperties(formData, key);
      }
    }

    /** Every response leads back to the section list, whatever its
        `success`. */
    method FinishUpdate(outcome: Api.Outcome<Api.Reply>) returns (navigateTo: Option<string>)
      requires Valid() && loading
      modifies this
      ensures Valid() && formData == old(formData) && !loading
      ensures message == Forms.SettledMessage(outcome, FailureFallback)
      ensures navigateTo == Forms.NavigationAfter(outcome, Forms.OnAnyResponse, "/section")
    {
      message := Forms.SettledMessage(outcome, FailureFallback);
      navigateTo := Forms.NavigationAfter(outcome, Forms.OnAnyResponse, "/section");
      loading := false;
    }
  }
}
