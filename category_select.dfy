/** The category dropdown: scoped by a section id, searched by its name only,
    labelled "name [section name]". */
module CategorySelect {
  import opened Wrappers
  import Seqs
  import Text
  import Api
  import Selector

  datatype NamedRef = NamedRef(id: string, name: string)
  datatype VocabularyRef = VocabularyRef(id: string, name: string, vocabType: string)
  datatype Category = Category(id: string, name: string, section: NamedRef, vocabulary: VocabularyRef)

  function CategoryConfig(): Selector.Config<Category> {
    Selector.Config(
      (c: Category) => c.id,
      (c: Category) => [c.name],
      (c: Category) => c.name + " [" + c.section.name + "]",
      "All categories",
      "Select category",
      "Failed to fetch categories.",
      Some("section"))
  }

  /** Only the category's own name is searched. */
  lemma MatchesNameOnly(c: Category, term: string)
    ensures Selector.Matches(CategoryConfig(), c, term)
        <==> Text.Includes(Text.Lower(c.name), Text.Lower(term))
  {
    var fields := CategoryConfig().searchFields(c);
    assert fields == [c.name];
    if Text.Includes(Text.Lower(c.name), Text.Lower(term)) {
      assert Text.Includes(Text.Lower(fields[0]), Text.Lower(term));
    }
  }

  /** An example of `MatchesNameOnly`, which proves the general case: the
      section name appears in the label but is not searched, so typing the
      section's name does not find the category. */
  lemma SectionNameNotSearched()
    ensures !Selector.Matches(CategoryConfig(), Category("c1", "Cats", NamedRef("s1", "Animals"), VocabularyRef("v1", "Basic", "modern")), "animals")
  {
    var c := Category("c1", "Cats", NamedRef("s1", "Animals"), VocabularyRef("v1", "Basic", "modern"));
    MatchesNameOnly(c, "animals");
    assert Text.Lower("Cats") == "cats";
    assert Text.Lower("animals") == "animals";
    assert !Text.Includes("cats", "animals");
  }

  /** An example of `MatchesNameOnly` and `Selector.VisibleIsFilter`, which
      prove the general case: typing "cat" after loading "Cats" and "Dogs"
      leaves only "Cats". */
  lemma SearchCatFindsCats(cats: Category, dogs: Category)
    requires cats.name == "Cats" && dogs.name == "Dogs"
    ensures Selector.Visible(CategoryConfig(), [cats, dogs], "cat") == [cats]
  {
    var cfg := CategoryConfig();
    MatchesNameOnly(cats, "cat");
    MatchesNameOnly(dogs, "cat");
    assert Text.Lower("cat") == "cat";
    assert Text.Lower("Cats") == "cats";
    assert Text.Lower("Dogs") == "dogs";
    assert Text.OccursAt("cats", "cat", 0);
    assert !Text.Includes("dogs", "cat");
    var keep := (o: Category) => Selector.Matches(cfg, o, "cat");
    assert keep(cats) && !keep(dogs);
    var s := [cats, dogs];
    assert s[1..] == [dogs];
    assert s[1..][1..] == [];
    assert Seqs.Filter(s[1..], keep) == [];
    assert Seqs.Filter(s, keep) == [cats];
  }

  // The lemmas from here on read off this page's configuration: they record
  // how it differs from the other pages and hold by unfolding the shared
  // definitions, so most need no proof steps.

  lemma LoadIsScopedBySection(before: string, after: string)
    ensures Selector.LoadQuery(CategoryConfig(), after) == if after != "" then [("section", after)] else []
    ensures Selector.ReloadsOn(CategoryConfig(), before, after) <==> before != after
  {
  }

  lemma LabelText(includeAllOption: bool, value: string, options: seq<Category>)
    ensures includeAllOption && value == "" ==>
      Selector.SelectedLabel(CategoryConfig(), includeAllOption, value, options) == "All categories"
    ensures !(includeAllOption && value == "") && (forall j :: 0 <= j < |options| ==> options[j].id != value) ==>
      Selector.SelectedLabel(CategoryConfig(), includeAllOption, value, options) == "Select category"
    ensures forall j :: (0 <= j < |options| && options[j].id == value
                        && (forall k :: 0 <= k < j ==> options[k].id != value)
                        && !(includeAllOption && value == ""))
                        ==> Selector.SelectedLabel(CategoryConfig(), includeAllOption, value, options)
                            == options[j].name + " [" + options[j].section.name + "]"
  {
  }

  lemma FailureTexts(message: Option<string>)
    ensures Api.FailureText<seq<Category>>(Api.ApiFail(message), CategoryConfig().fetchFailure, Selector.NetworkError)
      == Api.MessageOr(message, "Failed to fetch categories.")
    ensures Api.FailureText<seq<Category>>(Api.NetworkFail, CategoryConfig().fetchFailure, Selector.NetworkError)
      == "Network error"
  {
  }
}
