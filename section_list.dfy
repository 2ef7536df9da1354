/** The section list: filtered by vocabulary and search text. */
module SectionList {
  import opened Wrappers
  import Api
  import ListPage

  datatype SectionRow = SectionRow(id: string, name: string)

  function SectionListConfig(): ListPage.Config {
    ListPage.Config(
      ["vocabulary", "search"],
      {"vocabulary"},
      "Failed to load data",
      "Network error")
  }

  /** The query: vocabulary when non-empty, then search when non-empty,
      then the page and `limit=10`. */
  lemma QueryOrder(f: map<string, string>, page: nat)
    requires "vocabulary" in f && "search" in f
    ensures ListPage.Query(SectionListConfig().paramKeys, f, page)
         == ListPage.IfSet("vocabulary", f["vocabulary"]) + ListPage.IfSet("search", f["search"])
          + [("page", ListPage.Decimal(page)), ("limit", "10")]
  {
    assert ListPage.OptionalParams([], f) == [];
    ListPage.OptionalParamsCons(["search"], f);
    assert ["search"][1..] == [];
    ListPage.OptionalParamsCons(["vocabulary", "search"], f);
    assert ["vocabulary", "search"][1..] == ["search"];
    assert ListPage.Decimal(10) == "10";
  }

  // The lemmas from here on read off this page's configuration: they record
  // how it differs from the other pages and hold by unfolding the shared
  // definitions, so most need no proof steps.

  /** A fetch runs again whenever the vocabulary filter or the page changes. */
  lemma EffectDependencies(f1: map<string, string>, p1: nat, f2: map<string, string>, p2: nat)
    requires "vocabulary" in f1 && "vocabulary" in f2
    ensures ListPage.EffectReruns(SectionListConfig().effectKeys, f1, p1, f2, p2)
        <==> p1 != p2 || f1["vocabulary"] != f2["vocabulary"]
  {
  }

  /** This page's texts lack the trailing full stop of the word and category
      lists. */
  lemma FailureTexts(message: Option<string>)
    ensures Api.FailureText<ListPage.ListReply<SectionRow>>(Api.ApiFail(message), SectionListConfig().failureText, SectionListConfig().networkText)
      == Api.MessageOr(message, "Failed to load data")
    ensures Api.FailureText<ListPage.ListReply<SectionRow>>(Api.NetworkFail, SectionListConfig().failureText, SectionListConfig().networkText)
      == "Network error"
  {
  }
}
