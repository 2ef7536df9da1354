/** The category list: filtered by search text, vocabulary and section. */
module CategoryList {
  import opened Wrappers
  import Api
  import ListPage

  datatype CategoryRow = CategoryRow(id: string, name: string)

  function CategoryListConfig(): ListPage.Config {
    ListPage.Config(
      ["search", "vocabulary", "section"],
      {"vocabulary", "section"},
      "Failed to load data.",
      "Network error.")
  }

  /** The query: search, vocabulary and section when non-empty, in that
      order, then the page and `limit=10`. */
  lemma QueryOrder(f: map<string, string>, page: nat)
    requires "search" in f && "vocabulary" in f && "section" in f
    ensures ListPage.Query(CategoryListConfig().paramKeys, f, page)
         == ListPage.IfSet("search", f["search"]) + ListPage.IfSet("vocabulary", f["vocabulary"])
          + ListPage.IfSet("section", f["section"])
          + [("page", ListPage.Decimal(page)), ("limit", "10")]
  {
    assert ListPage.OptionalParams([], f) == [];
    ListPage.OptionalParamsCons(["section"], f);
    assert ["section"][1..] == [];
    ListPage.OptionalParamsCons(["vocabulary", "section"], f);
    assert ["vocabulary", "section"][1..] == ["section"];
    ListPage.OptionalParamsCons(["search", "vocabulary", "section"], f);
    assert ["search", "vocabulary", "section"][1..] == ["vocabulary", "section"];
    assert ListPage.Decimal(10) == "10";
  }

  // The lemmas from here on read off this page's configuration: they record
  // how it differs from the other pages and hold by unfolding the shared
  // definitions, so most need no proof steps.

  lemma EffectDependencies(f1: map<string, string>, p1: nat, f2: map<string, string>, p2: nat)
    requires "vocabulary" in f1 && "section" in f1 && "vocabulary" in f2 && "section" in f2
    ensures ListPage.EffectReruns(CategoryListConfig().effectKeys, f1, p1, f2, p2)
        <==> p1 != p2 || f1["vocabulary"] != f2["vocabulary"] || f1["section"] != f2["section"]
  {
  }

  lemma FailureTexts(message: Option<string>)
    ensures Api.FailureText<ListPage.ListReply<CategoryRow>>(Api.ApiFail(message), CategoryListConfig().failureText, CategoryListConfig().networkText)
      == Api.MessageOr(message, "Failed to load data.")
    ensures Api.FailureText<ListPage.ListReply<CategoryRow>>(Api.NetworkFail, CategoryListConfig().failureText, CategoryListConfig().networkText)
      == "Network error."
  {
  }

  /** An example of `ListPage.ListPage.SetFilter`, whose contract proves the
      general case: a vocabulary change leaves the section filter as it was. */
  method VocabularyChangeKeepsSection() returns (section: string, page: nat)
    ensures section == "s1" && page == 1
  {
    var list := new ListPage.ListPage<CategoryRow>(CategoryListConfig());
    var changed := list.SetFilter("section", "s1");
    changed := list.SetFilter("vocabulary", "v2");
    section := list.filters["section"];
    page := list.page;
  }
}
