/** The word list: filtered by search text, vocabulary, section and
    category. */
module WordList {
  import opened Wrappers
  import Api
  import ListPage

  datatype WordRow = WordRow(id: string, name: string, description: string)

  function WordListConfig(): ListPage.Config {
    ListPage.Config(
      ["search", "vocabulary", "section", "category"],
      {"vocabulary", "section", "category"},
      "Failed to load data.",
      "Network error.")
  }

  /** The query: search, vocabulary, section and category, each only when
      non-empty and in that order, then always the page and `limit=10`. */
  lemma QueryOrder(f: map<string, string>, page: nat)
    requires "search" in f && "vocabulary" in f && "section" in f && "category" in f
    ensures ListPage.Query(WordListConfig().paramKeys, f, page)
         == ListPage.IfSet("search", f["search"]) + ListPage.IfSet("vocabulary", f["vocabulary"])
          + ListPage.IfSet("section", f["section"]) + ListPage.IfSet("category", f["category"])
          + [("page", ListPage.Decimal(page)), ("limit", "10")]
  {
    assert ListPage.OptionalParams([], f) == [];
    ListPage.OptionalParamsCons(["category"], f);
    assert ["category"][1..] == [];
    ListPage.OptionalParamsCons(["section", "category"], f);
    assert ["section", "category"][1..] == ["category"];
    ListPage.OptionalParamsCons(["vocabulary", "section", "category"], f);
    assert ["vocabulary", "section", "category"][1..] == ["section", "category"];
    ListPage.OptionalParamsCons(["search", "vocabulary", "section", "category"], f);
    assert ["search", "vocabulary", "section", "category"][1..] == ["vocabulary", "section", "category"];
    assert ListPage.Decimal(10) == "10";
  }

  // The lemmas from here on read off this page's configuration: they record
  // how it differs from the other pages and hold by unfolding the shared
  // definitions, so most need no proof steps.

  /** The fetch effect follows the three dropdown filters and the page, not
      the search text, which goes through the debounce. */
  lemma EffectDependencies(f1: map<string, string>, p1: nat, f2: map<string, string>, p2: nat)
    requires "vocabulary" in f1 && "section" in f1 && "category" in f1
    requires "vocabulary" in f2 && "section" in f2 && "category" in f2
    ensures ListPage.EffectReruns(WordListConfig().effectKeys, f1, p1, f2, p2)
        <==> p1 != p2 || f1["vocabulary"] != f2["vocabulary"] || f1["section"] != f2["section"]
             || f1["category"] != f2["category"]
  {
  }

  lemma FailureTexts(message: Option<string>)
    ensures Api.FailureText<ListPage.ListReply<WordRow>>(Api.ApiFail(message), WordListConfig().failureText, WordListConfig().networkText)
      == Api.MessageOr(message, "Failed to load data.")
    ensures Api.FailureText<ListPage.ListReply<WordRow>>(Api.NetworkFail, WordListConfig().failureText, WordListConfig().networkText)
      == "Network error."
  {
  }

  /** An example of `ListPage.ListPage.SetFilter`, whose contract proves the
      general case: unlike the create form, choosing another vocabulary here
      keeps the chosen section and category filters; only the page returns
      to 1. */
  method VocabularyChangeKeepsDependents() returns (section: string, category: string, page: nat, refetch: bool)
    ensures section == "s1" && category == "c1" && page == 1 && refetch
  {
    var list := new ListPage.ListPage<WordRow>(WordListConfig());
    var changed := list.SetFilter("vocabulary", "v1");
    changed := list.SetFilter("section", "s1");
    changed := list.SetFilter("category", "c1");
    refetch := list.SetFilter("vocabulary", "v2");
    section := list.filters["section"];
    category := list.filters["category"];
    page := list.page;
  }
}
