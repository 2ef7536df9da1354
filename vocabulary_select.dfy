/** The vocabulary dropdown: unscoped, searched by name, labelled
    "name (type)". */
module VocabularySelect {
  import opened Wrappers
  import Text
  import Api
  import Selector

  datatype Vocabulary = Vocabulary(id: string, name: string, vocabType: string)

  function VocabularyConfig(): Selector.Config<Vocabulary> {
    Selector.Config(
      (v: Vocabulary) => v.id,
      (v: Vocabulary) => [v.name],
      (v: Vocabulary) => v.name + " (" + v.vocabType + ")",
      "All vocabularies",
      "Select vocabulary",
      "Failed to fetch vocabularies.",
      None)
  }

  /** An option is kept exactly when its lowercased name contains the
      lowercased term; the type is not searched. */
  lemma MatchesNameOnly(v: Vocabulary, term: string)
    ensures Selector.Matches(VocabularyConfig(), v, term)
        <==> Text.Includes(Text.Lower(v.name), Text.Lower(term))
  {
    var fields := VocabularyConfig().searchFields(v);
    assert fields == [v.name];
    if Text.Includes(Text.Lower(v.name), Text.Lower(term)) {
      assert Text.Includes(Text.Lower(fields[0]), Text.Lower(term));
    }
  }

  /** The visible list is the options whose name matches, in loaded order,
      and everything for the empty term. */
  lemma VisibleByName(options: seq<Vocabulary>, term: string, i: int)
    requires 0 <= i < |options|
    ensures options[i] in Selector.Visible(VocabularyConfig(), options, term)
        <==> Text.Includes(Text.Lower(options[i].name), Text.Lower(term))
    ensures term == "" ==> Selector.Visible(VocabularyConfig(), options, term) == options
  {
    var cfg := VocabularyConfig();
    var r := Selector.Visible(cfg, options, term);
    MatchesNameOnly(options[i], term);
    if options[i] in r {
      var k :| 0 <= k < |r| && r[k] == options[i];
      MatchesNameOnly(r[k], term);
    }
  }

  // The lemmas from here on read off this page's configuration: they record
  // how it differs from the other pages and hold by unfolding the shared
  // definitions, so most need no proof steps.

  /** The load runs once, without a scope parameter. */
  lemma LoadIsUnscoped(scopeBefore: string, scopeAfter: string)
    ensures Selector.LoadQuery(VocabularyConfig(), scopeAfter) == []
    ensures !Selector.ReloadsOn(VocabularyConfig(), scopeBefore, scopeAfter)
  {
  }

  /** The header reads "All vocabularies" for the empty value when "All" is
      offered, "name (type)" of the first loaded vocabulary with that id, or
      "Select vocabulary". */
  lemma LabelText(includeAllOption: bool, value: string, options: seq<Vocabulary>)
    ensures includeAllOption && value == "" ==>
      Selector.SelectedLabel(VocabularyConfig(), includeAllOption, value, options) == "All vocabularies"
    ensures !(includeAllOption && value == "") && (forall j :: 0 <= j < |options| ==> options[j].id != value) ==>
      Selector.SelectedLabel(VocabularyConfig(), includeAllOption, value, options) == "Select vocabulary"
    ensures forall j :: (0 <= j < |options| && options[j].id == value
                        && (forall k :: 0 <= k < j ==> options[k].id != value)
                        && !(includeAllOption && value == ""))
                        ==> Selector.SelectedLabel(VocabularyConfig(), includeAllOption, value, options)
                            == options[j].name + " (" + options[j].vocabType + ")"
  {
  }

  /** The error recorded for a failed load. */
  lemma FailureTexts(message: Option<string>)
    ensures Api.FailureText<seq<Vocabulary>>(Api.ApiFail(message), VocabularyConfig().fetchFailure, Selector.NetworkError)
      == Api.MessageOr(message, "Failed to fetch vocabularies.")
    ensures Api.FailureText<seq<Vocabulary>>(Api.NetworkFail, VocabularyConfig().fetchFailure, Selector.NetworkError)
      == "Network error"
  {
  }
}
