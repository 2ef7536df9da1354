/** The vocabulary list: filtered by a fixed type choice and search text. */
module VocabularyList {
  import opened Wrappers
  import Api
  import ListPage

  datatype VocabularyRow = VocabularyRow(id: string, name: string, vocabType: string)

  /** `TYPE_OPTIONS`: label and value of each entry of the type select. */
  const TypeOptions: seq<(string, string)> := [("All", ""), ("Modern", "modern"), ("History", "history")]

  function VocabularyListConfig(): ListPage.Config {
    ListPage.Config(
      ["type", "search"],
      {"type"},
      "Failed to load data",
      "Network error")
  }

  /** The type filter takes exactly the values "", "modern" and "history";
      "All" is the empty value, which sends no `type` parameter. */
  lemma TypeValues(v: string)
    ensures (exists i :: 0 <= i < |TypeOptions| && TypeOptions[i].1 == v) <==> v in {"", "modern", "history"}
    ensures ListPage.IfSet("type", TypeOptions[0].1) == []
  {
    if v == "" { assert TypeOptions[0].1 == v; }
    if v == "modern" { assert TypeOptions[1].1 == v; }
    if v == "history" { assert TypeOptions[2].1 == v; }
  }

  /** The query: type when non-empty, then search when non-empty, then the
      page and `limit=10`. */
  lemma QueryOrder(f: map<string, string>, page: nat)
    requires "type" in f && "search" in f
    ensures ListPage.Query(VocabularyListConfig().paramKeys, f, page)
         == ListPage.IfSet("type", f["type"]) + ListPage.IfSet("search", f["search"])
          + [("page", ListPage.Decimal(page)), ("limit", "10")]
  {
    assert ListPage.OptionalParams([], f) == [];
    ListPage.OptionalParamsCons(["search"], f);
    assert ["search"][1..] == [];
    ListPage.OptionalParamsCons(["type", "search"], f);
    assert ["type", "search"][1..] == ["search"];
    assert ListPage.Decimal(10) == "10";
  }

  // The lemmas from here on read off this page's configuration: they record
  // how it differs from the other pages and hold by unfolding the shared
  // definitions, so most need no proof steps.

  lemma EffectDependencies(f1: map<string, string>, p1: nat, f2: map<string, string>, p2: nat)
    requires "type" in f1 && "type" in f2
    ensures ListPage.EffectReruns(VocabularyListConfig().effectKeys, f1, p1, f2, p2)
        <==> p1 != p2 || f1["type"] != f2["type"]
  {
  }

  lemma FailureTexts(message: Option<string>)
    ensures Api.FailureText<ListPage.ListReply<VocabularyRow>>(Api.ApiFail(message), VocabularyListConfig().failureText, VocabularyListConfig().networkText)
      == Api.MessageOr(message, "Failed to load data")
    ensures Api.FailureText<ListPage.ListReply<VocabularyRow>>(Api.NetworkFail, VocabularyListConfig().failureText, VocabularyListConfig().networkText)
      == "Network error"
  {
  }

  /** An example of `ListPage.ListPage.SetFilter` and `QueryOrder`, which prove
      the general case: after a first load reports three pages and the user
      opens page 3, choosing "History" asks for `type=history&page=1&limit=10`. */
  method ChooseHistory() returns (query: seq<(string, string)>)
    ensures query == [("type", "history"), ("page", "1"), ("limit", "10")]
  {
    var list := new ListPage.ListPage<VocabularyRow>(VocabularyListConfig());
    var first := list.StartFetch();
    var reply := ListPage.ListReply([], ListPage.ServerPagination(Some(1), Some(10), Some(3), true, false));
    list.FinishFetch(1, Api.Success(reply));
    assert ListPage.PageNumbers(3)[2] == 3;
    var pageRefetch := list.GoToPage(3);
    assert list.page == 3;
    var refetch := list.SetFilter("type", TypeOptions[2].1);
    query := list.StartFetch();
    QueryOrder(list.filters, list.page);
    assert ListPage.Decimal(1) == "1";
  }
}
