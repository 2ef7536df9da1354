/** The "Update Word" page: loads a word by the id in the route, lets the
    user edit its name, description and image, and sends the fields that are
    not `""`. */
module WordUpdate {
  import opened Wrappers
  import Api
  import Js
  import Forms

  /** The fields hold whatever the server sent (after `|| ""`), so they are
      JavaScript values rather than strings. */
  datatype WordForm = WordForm(name: Js.Value, description: Js.Value, image: Js.Value)

  const Blank: WordForm := WordForm(Js.Str(""), Js.Str(""), Js.Str(""))
  const FailureFallback: string := "Failed to update word."

  /** A field as the load writes it: the server's value when truthy, else `""`. */
  function Defaulted(v: Js.Value): (r: Js.Value)
    ensures Js.Truthy(v) ==> r == v
    ensures !Js.Truthy(v) ==> r == Js.Str("")
    ensures r == Js.Str("") || Js.Truthy(r)
  {
    Js.Or(v, Js.Str(""))
  }

  /** The form a successful load writes: name, description and image of the
      response's `data`, each defaulting to `""`; nothing else is kept. */
  function Loaded(data: Js.Entries): (r: WordForm)
    ensures r.name == Defaulted(Js.Get(data, "name"))
    ensures r.description == Defaulted(Js.Get(data, "description"))
    ensures r.image == Defaulted(Js.Get(data, "image"))
  {
    WordForm(Defaulted(Js.Get(data, "name")), Defaulted(Js.Get(data, "description")), Defaulted(Js.Get(data, "image")))
  }

  /** Properties of the response other than the three fields do not reach
      the form. */
  lemma LoadIgnoresOtherFields(data: Js.Entries, key: string, v: Js.Value)
    requires key != "name" && key != "description" && key != "image"
    ensures Loaded(Js.Put(data, key, v)) == Loaded(data)
  {
    var d := Js.Put(data, key, v);
    assert Js.Lookup(d, "name") == Js.Lookup(data, "name");
    assert Js.Lookup(d, "description") == Js.Lookup(data, "description");
    assert Js.Lookup(d, "image") == Js.Lookup(data, "image");
  }

  /** The inputs wired to `handleChange`. */
  datatype TextField = Name | Description

  function WithText(form: WordForm, field: TextField, value: string): (r: WordForm)
    ensures field.Name? ==> r.name == Js.Str(value) && r.description == form.description
    ensures field.Description? ==> r.description == Js.Str(value) && r.name == form.name
    ensures r.image == form.image
  {
    match field
    case Name => form.(name := Js.Str(value))
    case Description => form.(description := Js.Str(value))
  }

  function WithImage(form: WordForm, url: string): (r: WordForm)
    ensures r.image == Js.Str(url) && r.name == form.name && r.description == form.description
  {
    form.(image := Js.Str(url))
  }

  function Entries(form: WordForm): (e: Js.Entries)
    ensures Js.DistinctKeys(e)
  {
    [("name", form.name), ("description", form.description), ("image", form.image)]
  }

  /** `.filter(([_, v]) => v !== "")` over the form's entries. */
  function Payload(form: WordForm): (p: Js.Entries)
  {
    Js.OmitEmptyStrings(Entries(form))
  }

  /** Exactly the fields equal to `""` are dropped. */
  lemma PayloadFields(form: WordForm)
    ensures Js.Lookup(Payload(form), "name") == if form.name == Js.Str("") then None else Some(form.name)
    ensures Js.Lookup(Payload(form), "description") == if form.description == Js.Str("") then None else Some(form.description)
    ensures Js.Lookup(Payload(form), "image") == if form.image == Js.Str("") then None else Some(form.image)
  {
    var e := Entries(form);
    Js.OmitEmptyStringsAt(e, 0);
    Js.OmitEmptyStringsAt(e, 1);
    Js.OmitEmptyStringsAt(e, 2);
  }

  /** Right after a load every field is `""` or truthy, so the `!== ""`
      filter sends exactly the truthy fields. */
  lemma LoadedPayloadIsTruthyFields(data: Js.Entries)
    ensures Payload(Loaded(data)) == Js.OmitFalsy(Entries(Loaded(data)))
  {
    var e := Entries(Loaded(data));
    assert Js.FalsyOnlyWhenEmpty(e);
    Js.OmitFiltersAgree(e);
  }

  predicate MessageRed(message: string) { Forms.MentionsFailedOrError(message) }

  class UpdateWordPage {
    /** The route's `id`; `""` stands for a missing parameter. */
    const id: string
    var formData: WordForm
    var message: string
    var loading: bool

    constructor (id: string)
      ensures this.id == id && formData == Blank && message == "" && !loading
    {
      this.id := id;
      formData := Blank;
      message := "";
      loading := false;
    }

    /** The load effect runs only when there is an id. */
    predicate LoadRequested()
      reads this
    {
      id != ""
    }

    /** The load settles: a response replaces the form, a failure leaves it
        as it was. Neither touches the message or `loading`. The data is a
        parsed JSON object, so its keys are distinct and each field read
        is its one property. */
    method FinishLoad(outcome: Api.Outcome<Js.Entries>)
      requires LoadRequested()
      requires outcome.Success? ==> Js.DistinctKeys(outcome.data)
      modifies this
      ensures outcome.Success? ==> formData == Loaded(outcome.data)
      ensures !outcome.Success? ==> formData == old(formData)
      ensures message == old(message) && loading == old(loading)
    {
      if outcome.Success? {
        formData := Loaded(outcome.data);
      }
    }

    method HandleChange(field: TextField, value: string)
      modifies this
      ensures formData == WithText(old(formData), field, value)
      ensures message == old(message) && loading == old(loading)
    {
      formData := WithText(formData, field, value);
    }

    method UploadDone(url: string)
      modifies this
      ensures formData == WithImage(old(formData), url)
      ensures message == old(message) && loading == old(loading)
    {
      formData := WithImage(formData, url);
    }

    /** `handleUpdate`: without an id nothing happens at all; otherwise the
        message is cleared, `loading` is set and the payload is sent. */
    method StartUpdate() returns (request: Option<Js.Entries>)
      requires !loading
      modifies this
      ensures formData == old(formData)
      ensures id == "" ==> request.None? && message == old(message) && !loading
      ensures id != "" ==> request == Some(Payload(formData)) && message == "" && loading
    {
      if id == "" {
        return None;
      }
      loading := true;
      message := "";
      request := Some(Payload(formData));
    }

    /** Only a response with `success` true leads back to the word list. */
    method FinishUpdate(outcome: Api.Outcome<Api.Reply>) returns (navigateTo: Option<string>)
      requires loading
      modifies this
      ensures formData == old(formData) && !loading
      ensures message == Forms.SettledMessage(outcome, FailureFallback)
      ensures navigateTo == Forms.NavigationAfter(outcome, Forms.OnSuccessOnly, "/word")
    {
      message := Forms.SettledMessage(outcome, FailureFallback);
      navigateTo := Forms.NavigationAfter(outcome, Forms.OnSuccessOnly, "/word");
      loading := false;
    }
  }
}
